/** The stored throttle preferences of config/throttles.go and the names of config/display_name.go. */
module Settings {
  import opened Results

  /** A text is its code points; a byte that is not valid UTF-8 counts as one code point, -1. */
  type Text = seq<int>

  const INVALID_BYTE := -1
  const FUNCTIONS: nat := 29

  /** One entry for each of the functions F0 to F28. */
  type Flags = s: seq<bool> | |s| == FUNCTIONS witness seq(29, _ => false)
  type Labels = s: seq<Text> | |s| == FUNCTIONS witness seq(29, _ => [])

  function NoFlags(): Flags {
    seq(FUNCTIONS, _ => false)
  }

  function NoLabels(): Labels {
    seq(FUNCTIONS, _ => [])
  }

  predicate IsControl(r: int) {
    0 <= r <= 0x1F || 0x7F <= r <= 0x9F
  }

  predicate IsSpace(r: int) {
    || 0x09 <= r <= 0x0D || r == 0x20 || r == 0x85 || r == 0xA0 || r == 0x1680
    || 0x2000 <= r <= 0x200A || r == 0x2028 || r == 0x2029 || r == 0x202F || r == 0x205F || r == 0x3000
  }

  predicate IsNameRune(r: int) {
    r != INVALID_BYTE && !IsControl(r) && r != 0x2028 && r != 0x2029
  }

  predicate IsDisplayName(name: Text) {
    |name| <= 80 && forall k | 0 <= k < |name| :: IsNameRune(name[k])
  }

  function TrimLeft(name: Text): Text {
    if name != [] && IsSpace(name[0]) then TrimLeft(name[1..]) else name
  }

  function TrimRight(name: Text): Text {
    if name != [] && IsSpace(name[|name| - 1]) then TrimRight(name[..|name| - 1]) else name
  }

  function Trim(name: Text): Text {
    TrimRight(TrimLeft(name))
  }

  lemma {:induction false} TrimLeftKeepsNames(name: Text)
    requires IsDisplayName(name)
    ensures IsDisplayName(TrimLeft(name))
  {
    if name != [] && IsSpace(name[0]) {
      TrimLeftKeepsNames(name[1..]);
    }
  }

  lemma {:induction false} TrimRightKeepsNames(name: Text)
    requires IsDisplayName(name)
    ensures IsDisplayName(TrimRight(name))
  {
    if name != [] && IsSpace(name[|name| - 1]) {
      TrimRightKeepsNames(name[..|name| - 1]);
    }
  }

  lemma TrimKeepsNames(name: Text)
    requires IsDisplayName(name)
    ensures IsDisplayName(Trim(name))
  {
    TrimLeftKeepsNames(name);
    TrimRightKeepsNames(TrimLeft(name));
  }

  predicate AllSpace(name: Text) {
    forall k | 0 <= k < |name| :: IsSpace(name[k])
  }

  /** t is what is left of the name without the white space at both ends. */
  ghost predicate IsTrimmed(name: Text, t: Text) {
    && (t != [] ==> !IsSpace(t[0]) && !IsSpace(t[|t| - 1]))
    && exists before, after :: AllSpace(before) && AllSpace(after) && name == before + t + after
  }

  lemma {:induction false} TrimLeftCuts(name: Text) returns (before: Text)
    ensures AllSpace(before) && name == before + TrimLeft(name)
    ensures TrimLeft(name) != [] ==> !IsSpace(TrimLeft(name)[0])
  {
    if name != [] && IsSpace(name[0]) {
      var more := TrimLeftCuts(name[1..]);
      before := [name[0]] + more;
      assert name == [name[0]] + name[1..];
    } else {
      before := [];
    }
  }

  lemma {:induction false} TrimRightCuts(name: Text) returns (after: Text)
    ensures AllSpace(after) && name == TrimRight(name) + after
    ensures TrimRight(name) != [] ==> !IsSpace(TrimRight(name)[|TrimRight(name)| - 1])
  {
    if name != [] && IsSpace(name[|name| - 1]) {
      var more := TrimRightCuts(name[..|name| - 1]);
      after := more + [name[|name| - 1]];
      assert name == name[..|name| - 1] + [name[|name| - 1]];
    } else {
      after := [];
    }
  }

  /** Trimming cuts off exactly the white space at both ends. */
  lemma TrimCutsSpace(name: Text)
    ensures IsTrimmed(name, Trim(name))
  {
    var left := TrimLeft(name);
    var before := TrimLeftCuts(name);
    var after := TrimRightCuts(left);
    assert before + (Trim(name) + after) == before + Trim(name) + after;
    assert Trim(name) != [] ==> Trim(name)[0] == left[0];
  }

  // ---------------------------------------------------------------- stored tabs

  /** An absent toggle stands for a file written before function modes were stored per tab. */
  datatype Tab = Tab(address: int, name: Text, labels: Labels, toggle: Option<Flags>, hidden: Flags)

  datatype ThrottleSettings = ThrottleSettings(version: int, tabs: seq<Tab>, selected: int)

  const DEFAULT_THROTTLES := ThrottleSettings(1, [Tab(3, [], NoLabels(), None, NoFlags())], 3)

  predicate IsTab(t: Tab) {
    && IsDisplayName(t.name)
    && (forall n | 0 <= n < FUNCTIONS :: IsDisplayName(t.labels[n]))
    && 1 <= t.address <= 10293
  }

  predicate DistinctAddresses(tabs: seq<Tab>) {
    forall i, j | 0 <= i < j < |tabs| :: tabs[i].address != tabs[j].address
  }

  /** What a stored layout has to be: at least one tab, every tab sound, no address twice,
      and a selected tab. */
  predicate IsLayout(s: ThrottleSettings) {
    && s.version == 1 && s.tabs != []
    && (forall i | 0 <= i < |s.tabs| :: IsTab(s.tabs[i]))
    && DistinctAddresses(s.tabs)
    && exists i | 0 <= i < |s.tabs| :: s.tabs[i].address == s.selected
  }

  method ValidateDisplayName(name: Text) returns (ok: bool)
    ensures ok <==> IsDisplayName(name)
  {
    if INVALID_BYTE in name || |name| > 80 {
      return false;
    }
    for k := 0 to |name|
      invariant forall j | 0 <= j < k :: IsNameRune(name[j])
    {
      if IsControl(name[k]) || name[k] == 0x2028 || name[k] == 0x2029 {
        return false;
      }
    }
    return true;
  }

  method ValidateLabels(labels: Labels) returns (ok: bool)
    ensures ok <==> forall n | 0 <= n < FUNCTIONS :: IsDisplayName(labels[n])
  {
    for n := 0 to FUNCTIONS
      invariant forall j | 0 <= j < n :: IsDisplayName(labels[j])
    {
      var valid := ValidateDisplayName(labels[n]);
      if !valid {
        return false;
      }
    }
    return true;
  }

  /** The scan of ThrottleSettings.Validate with its set of addresses seen so far. */
  method Validate(s: ThrottleSettings) returns (ok: bool)
    ensures ok <==> IsLayout(s)
  {
    if s.version != 1 || |s.tabs| == 0 {
      return false;
    }
    var seen: set<int> := {};
    for i := 0 to |s.tabs|
      invariant forall j | 0 <= j < i :: IsTab(s.tabs[j]) && s.tabs[j].address in seen
      invariant forall a | a in seen :: exists j | 0 <= j < i :: s.tabs[j].address == a
      invariant DistinctAddresses(s.tabs[..i])
    {
      var tab := s.tabs[i];
      var named := ValidateDisplayName(tab.name);
      if !named {
        return false;
      }
      var labelled := ValidateLabels(tab.labels);
      if !labelled {
        return false;
      }
      if tab.address < 1 || tab.address > 10293 || tab.address in seen {
        return false;
      }
      seen := seen + {tab.address};
    }
    assert s.tabs[..|s.tabs|] == s.tabs;
    return s.selected in seen;
  }
}
