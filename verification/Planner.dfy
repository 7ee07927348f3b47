/** The planner's identifiers: whatever names a generated plan brings, it leaves with distinct ones. */
module Planner {

  // ---------------------------------------------------------------- strings

  /** Unicode white space, as `strings.TrimSpace` has it. */
  predicate IsSpace(c: char) {
    var n := c as int;
    9 <= n <= 13 || n in {0x20, 0x85, 0xA0, 0x1680, 0x2028, 0x2029, 0x202F, 0x205F, 0x3000} || 0x2000 <= n <= 0x200A
  }

  function TrimLeft(s: string): string { if s != "" && IsSpace(s[0]) then TrimLeft(s[1..]) else s }

  function TrimRight(s: string): string { if s != "" && IsSpace(s[|s| - 1]) then TrimRight(s[..|s| - 1]) else s }

  function Trim(s: string): string { TrimRight(TrimLeft(s)) }

  function Digit(d: nat): char
    requires d < 10
  {
    "0123456789"[d]
  }

  function Decimal(n: nat): string {
    if n < 10 then [Digit(n)] else Decimal(n / 10) + [Digit(n % 10)]
  }

  lemma {:induction false} DecimalIsInjective(a: nat, b: nat)
    requires Decimal(a) == Decimal(b)
    ensures a == b
    decreases a
  {
    LastDigit(a);
    LastDigit(b);
    assert a < 10 <==> b < 10;
    if a >= 10 {
      assert Decimal(a / 10) == Decimal(a)[..|Decimal(a)| - 1] == Decimal(b)[..|Decimal(b)| - 1] == Decimal(b / 10);
      DecimalIsInjective(a / 10, b / 10);
    }
  }

  lemma LastDigit(n: nat)
    ensures |Decimal(n)| >= 1 && Decimal(n)[|Decimal(n)| - 1] == Digit(n % 10)
    ensures n >= 10 <==> |Decimal(n)| > 1
  {
  }

  /** `<base>_<n>` */
  function Suffixed(base: string, n: nat): string { base + "_" + Decimal(n) }

  lemma SuffixedIsInjective(base: string, a: nat, b: nat)
    requires Suffixed(base, a) == Suffixed(base, b)
    ensures a == b
  {
    assert Decimal(a) == Suffixed(base, a)[|base| + 1..] == Suffixed(base, b)[|base| + 1..] == Decimal(b);
    DecimalIsInjective(a, b);
  }

  /** The preferred name, else the fallback, else a last resort. */
  function BaseName(preferred: string, fallback: string, last: string): string {
    if Trim(preferred) != "" then Trim(preferred) else if Trim(fallback) != "" then Trim(fallback) else last
  }

  // ---------------------------------------------------------------- the uniquifiers

  /** The suffixed names from `low` up to but without `high`. */
  ghost function Tried(base: string, low: nat, high: nat): set<string> { set n: nat | low <= n < high :: Suffixed(base, n) }

  lemma {:induction false} TriedSize(base: string, low: nat, high: nat)
    requires low <= high
    ensures |Tried(base, low, high)| == high - low
    decreases high
  {
    if low == high {
      assert Tried(base, low, high) == {};
    } else {
      TriedSize(base, low, high - 1);
      forall n: nat | low <= n < high - 1 ensures Suffixed(base, n) != Suffixed(base, high - 1) {
        if Suffixed(base, n) == Suffixed(base, high - 1) { SuffixedIsInjective(base, n, high - 1); }
      }
      assert Tried(base, low, high) == Tried(base, low, high - 1) + {Suffixed(base, high - 1)};
    }
  }

  lemma SubsetSize<T>(a: set<T>, b: set<T>)
    requires a <= b
    ensures |a| <= |b|
  {
    assert b == a + (b - a);
  }

  /** The name a uniquifier gives: the base if free, else the base with the least free suffix from two on. */
  ghost predicate NameFor(base: string, taken: set<string>, name: string) {
    if base !in taken then name == base
    else exists n: nat :: n >= 2 && FirstFree(base, taken, n) && name == Suffixed(base, n)
  }

  ghost predicate FirstFree(base: string, taken: set<string>, n: nat) {
    Suffixed(base, n) !in taken && forall k: nat :: 2 <= k < n ==> Suffixed(base, k) in taken
  }

  lemma NameIsUnique(base: string, taken: set<string>, a: string, b: string)
    requires NameFor(base, taken, a) && NameFor(base, taken, b)
    ensures a == b && a !in taken
  {
    if base in taken {
      var m: nat :| m >= 2 && FirstFree(base, taken, m) && a == Suffixed(base, m);
      var n: nat :| n >= 2 && FirstFree(base, taken, n) && b == Suffixed(base, n);
      assert !(m < n) && !(n < m);
    }
  }

  /** `uniquePlanningID`: the loop ends because the suffixed names are all different and only so many are taken. */
  method UniqueId(preferred: string, fallback: string, used: set<string>) returns (value: string)
    ensures NameFor(BaseName(preferred, fallback, "target"), used, value)
  {
    var base := BaseName(preferred, fallback, "target");
    if base !in used { return base; }
    var suffix: nat := 2;
    value := Suffixed(base, suffix);
    while value in used
      invariant suffix >= 2 && value == Suffixed(base, suffix)
      invariant forall k: nat :: 2 <= k < suffix ==> Suffixed(base, k) in used
      decreases |used| + 2 - suffix
    {
      TriedFits(base, 2, suffix, used);
      suffix := suffix + 1;
      value := Suffixed(base, suffix);
    }
    assert FirstFree(base, used, suffix);
  }

  /** So many suffixed names are taken, so at least so many names are. */
  lemma TriedFits(base: string, low: nat, suffix: nat, taken: set<string>)
    requires low <= suffix && forall k: nat :: low <= k <= suffix ==> Suffixed(base, k) in taken
    ensures suffix + 1 - low <= |taken|
  {
    TriedSize(base, low, suffix + 1);
    assert Tried(base, low, suffix + 1) <= taken;
    SubsetSize(Tried(base, low, suffix + 1), taken);
  }

  type Counts = c: map<string, int> | forall k :: k in c ==> c[k] >= 0 witness map[]

  function CountOf(counts: Counts, k: string): int { if k in counts then counts[k] else 0 }

  /** The names that are taken. */
  ghost function Taken(counts: Counts): set<string> { set k | k in counts && counts[k] > 0 }

  /** A counter never runs ahead: every suffix up to it is taken. */
  ghost predicate Sound(counts: Counts) {
    forall base, k: nat :: base in counts && 2 <= k <= counts[base] ==> Suffixed(base, k) in Taken(counts)
  }

  lemma TakenIffCounted(counts: Counts, k: string)
    ensures k in Taken(counts) <==> CountOf(counts, k) != 0
  {
  }

  lemma TakeOne(counts: Counts, k: string)
    requires Sound(counts)
    ensures Taken(counts[k := 1]) == Taken(counts) + {k} && Sound(counts[k := 1])
  {
    var after: Counts := counts[k := 1];
    assert Taken(after) == Taken(counts) + {k};
  }

  /** The state after a suffix was found: the base's counter moves up and the new name is counted. */
  lemma TakeSuffix(counts: Counts, base: string, n: nat)
    requires Sound(counts) && base in Taken(counts) && n > counts[base]
    requires forall k: nat :: 2 <= k < n ==> Suffixed(base, k) in Taken(counts)
    ensures var after: Counts := counts[base := n][Suffixed(base, n) := 1];
            Taken(after) == Taken(counts) + {Suffixed(base, n)} && Sound(after)
  {
    var after: Counts := counts[base := n][Suffixed(base, n) := 1];
    assert Suffixed(base, n) != base by { assert |Suffixed(base, n)| > |base|; }
    assert Taken(after) == Taken(counts) + {Suffixed(base, n)};
    forall b, k: nat | b in after && 2 <= k <= after[b] ensures Suffixed(b, k) in Taken(after) {
      if b != base { assert b in counts; }
    }
  }

  /** The search of `uniquePlanningKey`: the counter remembers where to go on looking, and nothing below it is free. */
  method FirstFreeSuffix(base: string, counts: Counts) returns (suffix: nat)
    requires Sound(counts) && base in Taken(counts)
    ensures suffix >= 2 && suffix > counts[base] && FirstFree(base, Taken(counts), suffix)
  {
    ghost var low: nat := counts[base] + 1;
    suffix := counts[base] + 1;
    while CountOf(counts, Suffixed(base, suffix)) != 0
      invariant low <= suffix
      invariant forall k: nat :: 2 <= k < suffix ==> Suffixed(base, k) in Taken(counts)
      decreases |Taken(counts)| + low - suffix
    {
      TakenIffCounted(counts, Suffixed(base, suffix));
      TriedFits(base, low, suffix, Taken(counts));
      suffix := suffix + 1;
    }
  }

  /** `uniquePlanningKey`: by its counters it gives the same name as the plain search of `uniquePlanningID`. */
  method UniqueKey(preferred: string, fallback: string, before: Counts) returns (value: string, counts: Counts)
    requires Sound(before)
    ensures NameFor(BaseName(preferred, fallback, "item"), Taken(before), value)
    ensures Taken(counts) == Taken(before) + {value} && Sound(counts)
  {
    var base := BaseName(preferred, fallback, "item");
    TakenIffCounted(before, base);
    if CountOf(before, base) == 0 {
      TakeOne(before, base);
      return base, before[base := 1];
    }
    var suffix := FirstFreeSuffix(base, before);
    TakeSuffix(before, base, suffix);
    value := Suffixed(base, suffix);
    counts := before[base := suffix][value := 1];
  }

  // ---------------------------------------------------------------- names given one after the other

  ghost predicate NoRepeats<T>(s: seq<T>) { forall i, k :: 0 <= i < k < |s| ==> s[i] != s[k] }

  ghost function SetOf(s: seq<string>): set<string> { set x | x in s }

  /** The names given to a list of bases in order, beside those already taken. */
  ghost predicate Named(taken: set<string>, bases: seq<string>, names: seq<string>) {
    |names| == |bases| && forall i :: 0 <= i < |names| ==> NameFor(bases[i], taken + SetOf(names[..i]), names[i])
  }

  lemma NamedNext(taken: set<string>, bases: seq<string>, names: seq<string>, base: string, name: string)
    requires Named(taken, bases, names) && NameFor(base, taken + SetOf(names), name)
    ensures Named(taken, bases + [base], names + [name])
    ensures SetOf(names + [name]) == SetOf(names) + {name}
  {
    forall i | 0 <= i <= |names| ensures NameFor((bases + [base])[i], taken + SetOf((names + [name])[..i]), (names + [name])[i]) {
      assert (names + [name])[..i] == names[..i];
      if i == |names| { assert names[..i] == names; }
    }
  }

  lemma {:induction false} NamedConcat(taken: set<string>, bases: seq<string>, names: seq<string>, bases': seq<string>, names': seq<string>)
    requires Named(taken, bases, names) && Named(taken + SetOf(names), bases', names')
    ensures Named(taken, bases + bases', names + names')
  {
    forall i | 0 <= i < |names + names'|
      ensures NameFor((bases + bases')[i], taken + SetOf((names + names')[..i]), (names + names')[i])
    {
      if i < |names| {
        assert (names + names')[..i] == names[..i];
      } else {
        var k := i - |names|;
        assert (names + names')[..i] == names + names'[..k];
        assert taken + SetOf(names + names'[..k]) == taken + SetOf(names) + SetOf(names'[..k]);
      }
    }
  }

  /** Names given in order are pairwise different, and different from those taken before. */
  lemma NamedAreDistinct(taken: set<string>, bases: seq<string>, names: seq<string>)
    requires Named(taken, bases, names)
    ensures NoRepeats(names) && forall i :: 0 <= i < |names| ==> names[i] !in taken
  {
    forall i | 0 <= i < |names| ensures names[i] !in taken + SetOf(names[..i]) {
      NameIsUnique(bases[i], taken + SetOf(names[..i]), names[i], names[i]);
    }
    forall i, k | 0 <= i < k < |names| ensures names[i] != names[k] { assert names[..k][i] in SetOf(names[..k]); }
  }

  /** Bases that are already different are all kept. */
  lemma {:induction false} DistinctBasesAreKept(bases: seq<string>, names: seq<string>, n: nat)
    requires Named({}, bases, names) && NoRepeats(bases) && n <= |names|
    ensures names[..n] == bases[..n]
  {
    if n > 0 {
      DistinctBasesAreKept(bases, names, n - 1);
      assert names[..n] == names[..n - 1] + [names[n - 1]] && bases[..n] == bases[..n - 1] + [bases[n - 1]];
    }
  }

  /** A name that needs no trimming and is not empty. */
  ghost predicate Proper(s: string) { s != "" && !IsSpace(s[0]) && !IsSpace(s[|s| - 1]) }

  lemma ProperIsKept(s: string, fallback: string, last: string)
    requires Proper(s)
    ensures BaseName(s, fallback, last) == s
  {
  }

  lemma {:induction false} TrimLeftStarts(s: string)
    ensures TrimLeft(s) != "" ==> !IsSpace(TrimLeft(s)[0])
  {
    if s != "" && IsSpace(s[0]) { TrimLeftStarts(s[1..]); }
  }

  lemma {:induction false} TrimRightEnds(s: string)
    ensures TrimRight(s) != "" ==> !IsSpace(TrimRight(s)[|TrimRight(s)| - 1]) && TrimRight(s)[0] == s[0]
  {
    if s != "" && IsSpace(s[|s| - 1]) { TrimRightEnds(s[..|s| - 1]); }
  }

  lemma BaseIsProper(preferred: string, fallback: string, last: string)
    requires Proper(last)
    ensures Proper(BaseName(preferred, fallback, last))
  {
    TrimLeftStarts(preferred);
    TrimRightEnds(TrimLeft(preferred));
    TrimLeftStarts(fallback);
    TrimRightEnds(TrimLeft(fallback));
  }

  lemma NameIsProper(base: string, taken: set<string>, name: string)
    requires Proper(base) && NameFor(base, taken, name)
    ensures Proper(name)
  {
    if base in taken {
      var n: nat :| n >= 2 && FirstFree(base, taken, n) && name == Suffixed(base, n);
      LastDigit(n);
      assert name[0] == base[0] && name[|name| - 1] == Decimal(n)[|Decimal(n)| - 1];
    }
  }

  ghost predicate AllProper(names: seq<string>) { forall i :: 0 <= i < |names| ==> Proper(names[i]) }

  lemma NamesAreProper(taken: set<string>, bases: seq<string>, names: seq<string>)
    requires Named(taken, bases, names) && AllProper(bases)
    ensures AllProper(names)
  {
    forall i | 0 <= i < |names| ensures Proper(names[i]) { NameIsProper(bases[i], taken + SetOf(names[..i]), names[i]); }
  }

  // ---------------------------------------------------------------- plans

  datatype AssetSlot = AssetSlot(key: string, kind: string)

  datatype PromptSlot = PromptSlot(purpose: string)

  datatype Element = Element(
    id: string, key: string, semanticType: string, title: string, revision: int, slots: seq<AssetSlot>, prompts: seq<PromptSlot>)

  datatype Capabilities = Capabilities(hasQuantity: bool, requiresPrompt: bool, requiresAsset: bool)

  datatype Module = Module(
    id: string, key: string, semanticType: string, title: string, order: int, planned: int,
    capabilities: Capabilities, elements: seq<Element>)

  const NO_CAPABILITIES := Capabilities(false, false, false)
  const DEFAULT_CAPABILITIES := Capabilities(true, true, true)

  function SlotKeys(s: seq<AssetSlot>): (ks: seq<string>)
    ensures |ks| == |s| && forall i :: 0 <= i < |s| ==> ks[i] == s[i].key
  {
    seq(|s|, i requires 0 <= i < |s| => s[i].key)
  }

  function Purposes(s: seq<PromptSlot>): (ps: seq<string>)
    ensures |ps| == |s| && forall i :: 0 <= i < |s| ==> ps[i] == s[i].purpose
  {
    seq(|s|, i requires 0 <= i < |s| => s[i].purpose)
  }

  function ElementKeys(s: seq<Element>): (ks: seq<string>)
    ensures |ks| == |s| && forall i :: 0 <= i < |s| ==> ks[i] == s[i].key
  {
    seq(|s|, i requires 0 <= i < |s| => s[i].key)
  }

  function ElementIds(s: seq<Element>): (ids: seq<string>)
    ensures |ids| == |s| && forall i :: 0 <= i < |s| ==> ids[i] == s[i].id
  {
    seq(|s|, i requires 0 <= i < |s| => s[i].id)
  }

  function ModuleKeys(s: seq<Module>): (ks: seq<string>)
    ensures |ks| == |s| && forall i :: 0 <= i < |s| ==> ks[i] == s[i].key
  {
    seq(|s|, i requires 0 <= i < |s| => s[i].key)
  }

  function ModuleIds(m: Module): seq<string> { [m.id] + ElementIds(m.elements) }

  /** All module and element ids of a plan, in the order in which they are given. */
  function PlanIds(s: seq<Module>): seq<string> {
    if s == [] then [] else PlanIds(s[..|s| - 1]) + ModuleIds(s[|s| - 1])
  }

  // What each name is made from.

  function SlotBase(s: AssetSlot, i: nat): string {
    BaseName(s.key, if Trim(s.kind) == "" then "asset_" + Decimal(i + 1) else Trim(s.kind), "item")
  }

  function SlotBases(s: seq<AssetSlot>): (bs: seq<string>)
    ensures |bs| == |s| && forall i :: 0 <= i < |s| ==> bs[i] == SlotBase(s[i], i)
  {
    seq(|s|, i requires 0 <= i < |s| => SlotBase(s[i], i))
  }

  /** A prompt takes its name from the element's only slot, if there is just one. */
  function PromptBase(p: PromptSlot, slots: seq<AssetSlot>): string {
    BaseName(p.purpose, if |slots| == 1 then slots[0].key else "content", "item")
  }

  function PromptBases(s: seq<PromptSlot>, slots: seq<AssetSlot>): (bs: seq<string>)
    ensures |bs| == |s| && forall i :: 0 <= i < |s| ==> bs[i] == PromptBase(s[i], slots)
  {
    seq(|s|, i requires 0 <= i < |s| => PromptBase(s[i], slots))
  }

  function ElementKeyBase(e: Element, i: nat): string { BaseName(e.key, "element_" + Decimal(i + 1), "item") }

  function ElementKeyBases(s: seq<Element>): (bs: seq<string>)
    ensures |bs| == |s| && forall i :: 0 <= i < |s| ==> bs[i] == ElementKeyBase(s[i], i)
  {
    seq(|s|, i requires 0 <= i < |s| => ElementKeyBase(s[i], i))
  }

  function ElementIdBase(moduleKey: string, before: Element, key: string): string {
    BaseName(before.id, "element_" + moduleKey + "_" + key, "target")
  }

  function ElementIdBases(moduleKey: string, before: seq<Element>, after: seq<Element>): (bs: seq<string>)
    requires |before| == |after|
    ensures |bs| == |before| && forall i :: 0 <= i < |bs| ==> bs[i] == ElementIdBase(moduleKey, before[i], after[i].key)
  {
    seq(|before|, i requires 0 <= i < |before| => ElementIdBase(moduleKey, before[i], after[i].key))
  }

  function ModuleKeyBase(m: Module, i: nat): string { BaseName(m.key, "module_" + Decimal(i + 1), "item") }

  function ModuleKeyBases(s: seq<Module>): (bs: seq<string>)
    ensures |bs| == |s| && forall i :: 0 <= i < |s| ==> bs[i] == ModuleKeyBase(s[i], i)
  {
    seq(|s|, i requires 0 <= i < |s| => ModuleKeyBase(s[i], i))
  }

  function ModuleIdBases(before: Module, m: Module): seq<string>
    requires |before.elements| == |m.elements|
  {
    [BaseName(before.id, "module_" + m.key, "target")] + ElementIdBases(m.key, before.elements, m.elements)
  }

  ghost predicate SameShape(before: seq<Module>, after: seq<Module>) {
    |after| == |before| && forall i :: 0 <= i < |after| ==> |after[i].elements| == |before[i].elements|
  }

  function PlanIdBases(before: seq<Module>, after: seq<Module>): seq<string>
    requires SameShape(before, after)
    decreases |before|
  {
    if before == [] then []
    else
      var n := |before| - 1;
      PlanIdBases(before[..n], after[..n]) + ModuleIdBases(before[n], after[n])
  }

  // ---------------------------------------------------------------- what normalization promises

  ghost predicate NormalSlots(before: seq<AssetSlot>, after: seq<AssetSlot>) {
    && |after| == |before| && Named({}, SlotBases(before), SlotKeys(after))
    && forall i :: 0 <= i < |after| ==> after[i] == before[i].(key := after[i].key)
  }

  ghost predicate NormalPrompts(before: seq<PromptSlot>, after: seq<PromptSlot>, slots: seq<AssetSlot>) {
    |after| == |before| && Named({}, PromptBases(before, slots), Purposes(after))
  }

  ghost predicate NormalElement(before: Element, e: Element, moduleType: string) {
    && NormalSlots(before.slots, e.slots) && NormalPrompts(before.prompts, e.prompts, e.slots)
    && e.revision == (if before.revision <= 0 then 1 else before.revision)
    && e.title == (if before.title == "" then e.key else before.title)
    && e.semanticType == (if before.semanticType == "" then moduleType else before.semanticType)
  }

  ghost predicate NormalElements(before: seq<Element>, after: seq<Element>, moduleType: string) {
    && |after| == |before| && Named({}, ElementKeyBases(before), ElementKeys(after))
    && forall i :: 0 <= i < |after| ==> NormalElement(before[i], after[i], moduleType)
  }

  ghost predicate NormalModule(before: Module, m: Module, position: nat) {
    && m.order == position + 1 && m.planned == |m.elements|
    && m.semanticType == (if before.semanticType == "" then m.key else before.semanticType)
    && m.title == (if before.title == "" then m.semanticType else before.title)
    && m.capabilities == (if before.capabilities == NO_CAPABILITIES then DEFAULT_CAPABILITIES else before.capabilities)
    && NormalElements(before.elements, m.elements, m.semanticType)
  }

  /** The plan that `normalizeGeneratedModules` makes of another. */
  ghost predicate NormalPlan(before: seq<Module>, after: seq<Module>) {
    && |after| == |before| && (forall i :: 0 <= i < |after| ==> NormalModule(before[i], after[i], i))
    && Named({}, ModuleKeyBases(before), ModuleKeys(after))
    && Named({}, PlanIdBases(before, after), PlanIds(after))
  }

  // ---------------------------------------------------------------- the loops

  method NormalizeSlots(slots: seq<AssetSlot>) returns (r: seq<AssetSlot>)
    ensures NormalSlots(slots, r)
  {
    r := [];
    var counts: Counts := map[];
    for i := 0 to |slots|
      invariant NormalSlots(slots[..i], r) && Sound(counts) && Taken(counts) == SetOf(SlotKeys(r))
    {
      var fallback := Trim(slots[i].kind);
      if fallback == "" { fallback := "asset_" + Decimal(i + 1); }
      var key;
      key, counts := UniqueKey(slots[i].key, fallback, counts);
      SlotsNext(slots, i, r, key);
      r := r + [AssetSlot(key, slots[i].kind)];
    }
    assert slots[..|slots|] == slots;
  }

  lemma SlotsNext(slots: seq<AssetSlot>, i: nat, r: seq<AssetSlot>, key: string)
    requires i < |slots| && NormalSlots(slots[..i], r) && NameFor(SlotBase(slots[i], i), SetOf(SlotKeys(r)), key)
    ensures var r' := r + [AssetSlot(key, slots[i].kind)];
            NormalSlots(slots[..i + 1], r') && SetOf(SlotKeys(r')) == SetOf(SlotKeys(r)) + {key}
  {
    var r' := r + [AssetSlot(key, slots[i].kind)];
    assert {} + SetOf(SlotKeys(r)) == SetOf(SlotKeys(r));
    NamedNext({}, SlotBases(slots[..i]), SlotKeys(r), SlotBase(slots[i], i), key);
    assert SlotBases(slots[..i + 1]) == SlotBases(slots[..i]) + [SlotBase(slots[i], i)];
    assert SlotKeys(r') == SlotKeys(r) + [key];
    forall k | 0 <= k <= i ensures r'[k] == slots[..i + 1][k].(key := r'[k].key) {
      if k < i { assert r[k] == slots[..i][k].(key := r[k].key); }
    }
  }

  method NormalizePrompts(slots: seq<AssetSlot>, prompts: seq<PromptSlot>) returns (r: seq<PromptSlot>)
    ensures NormalPrompts(prompts, r, slots)
  {
    r := [];
    var counts: Counts := map[];
    for i := 0 to |prompts|
      invariant NormalPrompts(prompts[..i], r, slots) && Sound(counts) && Taken(counts) == SetOf(Purposes(r))
    {
      var fallback := "content";
      if |slots| == 1 { fallback := slots[0].key; }
      var purpose;
      purpose, counts := UniqueKey(prompts[i].purpose, fallback, counts);
      PromptsNext(prompts, i, r, slots, purpose);
      r := r + [PromptSlot(purpose)];
    }
    assert prompts[..|prompts|] == prompts;
  }

  lemma PromptsNext(prompts: seq<PromptSlot>, i: nat, r: seq<PromptSlot>, slots: seq<AssetSlot>, purpose: string)
    requires i < |prompts| && NormalPrompts(prompts[..i], r, slots)
    requires NameFor(PromptBase(prompts[i], slots), SetOf(Purposes(r)), purpose)
    ensures var r' := r + [PromptSlot(purpose)];
            NormalPrompts(prompts[..i + 1], r', slots) && SetOf(Purposes(r')) == SetOf(Purposes(r)) + {purpose}
  {
    var r' := r + [PromptSlot(purpose)];
    assert {} + SetOf(Purposes(r)) == SetOf(Purposes(r));
    NamedNext({}, PromptBases(prompts[..i], slots), Purposes(r), PromptBase(prompts[i], slots), purpose);
    assert PromptBases(prompts[..i + 1], slots) == PromptBases(prompts[..i], slots) + [PromptBase(prompts[i], slots)];
    assert Purposes(r') == Purposes(r) + [purpose];
  }

  /** The body of the element loop, once key and id are settled. */
  method NormalizeElement(e: Element, id: string, key: string, semanticType: string) returns (r: Element)
    ensures r.id == id && r.key == key && NormalElement(e, r, semanticType)
  {
    var slots := NormalizeSlots(e.slots);
    var prompts := NormalizePrompts(slots, e.prompts);
    r := Element(id, key, if e.semanticType == "" then semanticType else e.semanticType, if e.title == "" then key else e.title,
                 if e.revision <= 0 then 1 else e.revision, slots, prompts);
  }

  method NormalizeElements(moduleKey: string, semanticType: string, elements: seq<Element>, used: set<string>)
    returns (r: seq<Element>, used': set<string>)
    ensures NormalElements(elements, r, semanticType)
    ensures Named(used, ElementIdBases(moduleKey, elements, r), ElementIds(r)) && used' == used + SetOf(ElementIds(r))
  {
    r, used' := [], used;
    var counts: Counts := map[];
    for i := 0 to |elements|
      invariant NormalElements(elements[..i], r, semanticType) && Sound(counts) && Taken(counts) == SetOf(ElementKeys(r))
      invariant Named(used, ElementIdBases(moduleKey, elements[..i], r), ElementIds(r)) && used' == used + SetOf(ElementIds(r))
    {
      var key;
      key, counts := UniqueKey(elements[i].key, "element_" + Decimal(i + 1), counts);
      var id := UniqueId(elements[i].id, "element_" + moduleKey + "_" + key, used');
      var e := NormalizeElement(elements[i], id, key, semanticType);
      ElementsNext(elements, i, r, semanticType, e);
      ElementIdsNext(moduleKey, elements, i, r, used, e);
      r := r + [e];
      used' := used' + {id};
    }
    assert elements[..|elements|] == elements;
  }

  lemma ElementsNext(elements: seq<Element>, i: nat, r: seq<Element>, semanticType: string, e: Element)
    requires i < |elements| && NormalElements(elements[..i], r, semanticType) && NormalElement(elements[i], e, semanticType)
    requires NameFor(ElementKeyBase(elements[i], i), SetOf(ElementKeys(r)), e.key)
    ensures NormalElements(elements[..i + 1], r + [e], semanticType)
    ensures SetOf(ElementKeys(r + [e])) == SetOf(ElementKeys(r)) + {e.key}
  {
    assert {} + SetOf(ElementKeys(r)) == SetOf(ElementKeys(r));
    NamedNext({}, ElementKeyBases(elements[..i]), ElementKeys(r), ElementKeyBase(elements[i], i), e.key);
    assert ElementKeyBases(elements[..i + 1]) == ElementKeyBases(elements[..i]) + [ElementKeyBase(elements[i], i)];
    assert ElementKeys(r + [e]) == ElementKeys(r) + [e.key];
    forall k | 0 <= k <= i ensures NormalElement(elements[..i + 1][k], (r + [e])[k], semanticType) {
      if k < i { assert NormalElement(elements[..i][k], r[k], semanticType); }
    }
  }

  lemma ElementIdsNext(moduleKey: string, elements: seq<Element>, i: nat, r: seq<Element>, used: set<string>, e: Element)
    requires i < |elements| && |r| == i && Named(used, ElementIdBases(moduleKey, elements[..i], r), ElementIds(r))
    requires NameFor(ElementIdBase(moduleKey, elements[i], e.key), used + SetOf(ElementIds(r)), e.id)
    ensures Named(used, ElementIdBases(moduleKey, elements[..i + 1], r + [e]), ElementIds(r + [e]))
    ensures SetOf(ElementIds(r + [e])) == SetOf(ElementIds(r)) + {e.id}
  {
    var base := ElementIdBase(moduleKey, elements[i], e.key);
    NamedNext(used, ElementIdBases(moduleKey, elements[..i], r), ElementIds(r), base, e.id);
    assert ElementIdBases(moduleKey, elements[..i + 1], r + [e]) == ElementIdBases(moduleKey, elements[..i], r) + [base];
    assert ElementIds(r + [e]) == ElementIds(r) + [e.id];
  }

  /** The body of the module loop. */
  method NormalizeModule(m: Module, position: nat, used: set<string>, keys: Counts)
    returns (r: Module, used': set<string>, keys': Counts)
    requires Sound(keys)
    ensures NormalModule(m, r, position) && NameFor(ModuleKeyBase(m, position), Taken(keys), r.key)
    ensures Named(used, ModuleIdBases(m, r), ModuleIds(r))
    ensures used' == used + SetOf(ModuleIds(r)) && Sound(keys') && Taken(keys') == Taken(keys) + {r.key}
  {
    var key, counts := UniqueKey(m.key, "module_" + Decimal(position + 1), keys);
    var id := UniqueId(m.id, "module_" + key, used);
    var semanticType := if m.semanticType == "" then key else m.semanticType;
    var title := if m.title == "" then semanticType else m.title;
    var capabilities := if m.capabilities == NO_CAPABILITIES then DEFAULT_CAPABILITIES else m.capabilities;
    var elements, after := NormalizeElements(key, semanticType, m.elements, used + {id});
    ModuleIdsNamed(used, BaseName(m.id, "module_" + key, "target"), id, ElementIdBases(key, m.elements, elements), ElementIds(elements));
    return Module(id, key, semanticType, title, position + 1, |m.elements|, capabilities, elements), after, counts;
  }

  lemma ModuleIdsNamed(used: set<string>, base: string, id: string, bases: seq<string>, ids: seq<string>)
    requires NameFor(base, used, id) && Named(used + {id}, bases, ids)
    ensures Named(used, [base] + bases, [id] + ids) && SetOf([id] + ids) == {id} + SetOf(ids)
  {
    assert Named(used, [base], [id]) by { assert [id][..0] == [] && used + SetOf([]) == used; }
    assert SetOf([id]) == {id};
    NamedConcat(used, [base], [id], bases, ids);
  }

  /** The loop's state after `i` modules: those done are normal, and the books hold their keys and ids. */
  ghost predicate Booked(original: seq<Module>, i: nat, done: seq<Module>, used: set<string>, keys: Counts) {
    && i <= |original| && NormalPlan(original[..i], done) && Sound(keys)
    && Taken(keys) == SetOf(ModuleKeys(done)) && used == SetOf(PlanIds(done))
  }

  lemma NothingBooked(original: seq<Module>)
    ensures Booked(original, 0, [], {}, map[])
  {
  }

  lemma AllBooked(original: seq<Module>, done: seq<Module>, used: set<string>, keys: Counts)
    requires Booked(original, |original|, done, used, keys)
    ensures NormalPlan(original, done)
  {
    assert original[..|original|] == original;
  }

  /** `normalizeGeneratedModules` */
  method NormalizeModules(modules: array<Module>)
    modifies modules
    ensures NormalPlan(old(modules[..]), modules[..])
  {
    var used: set<string>, keys: Counts := {}, map[];
    ghost var original, done := modules[..], [];
    NothingBooked(original);
    for i := 0 to modules.Length
      invariant |done| == i && forall k :: 0 <= k < modules.Length ==> modules[k] == if k < i then done[k] else original[k]
      invariant Booked(original, i, done, used, keys)
    {
      var m;
      m, used, keys := NextModule(original, modules[i], i, done, used, keys);
      modules[i] := m;
      done := done + [m];
    }
    assert modules[..] == done;
    AllBooked(original, done, used, keys);
  }

  /** One turn of the loop, keeping the books. */
  method NextModule(ghost original: seq<Module>, m: Module, i: nat, ghost done: seq<Module>, used: set<string>, keys: Counts)
    returns (r: Module, used': set<string>, keys': Counts)
    requires i < |original| && m == original[i] && Booked(original, i, done, used, keys)
    ensures Booked(original, i + 1, done + [r], used', keys')
  {
    r, used', keys' := NormalizeModule(m, i, used, keys);
    PlanNext(original, i, done, r);
  }

  lemma PlanNext(original: seq<Module>, i: nat, done: seq<Module>, m: Module)
    requires i < |original| && NormalPlan(original[..i], done) && NormalModule(original[i], m, i)
    requires NameFor(ModuleKeyBase(original[i], i), SetOf(ModuleKeys(done)), m.key)
    requires Named(SetOf(PlanIds(done)), ModuleIdBases(original[i], m), ModuleIds(m))
    ensures NormalPlan(original[..i + 1], done + [m])
    ensures SetOf(ModuleKeys(done + [m])) == SetOf(ModuleKeys(done)) + {m.key}
    ensures SetOf(PlanIds(done + [m])) == SetOf(PlanIds(done)) + SetOf(ModuleIds(m))
  {
    PlanKeysNext(original, i, done, m);
    PlanIdsNext(original, i, done, m);
    forall k | 0 <= k <= i ensures NormalModule(original[..i + 1][k], (done + [m])[k], k) {
      if k < i { assert NormalModule(original[..i][k], done[k], k); }
    }
  }

  lemma PlanKeysNext(original: seq<Module>, i: nat, done: seq<Module>, m: Module)
    requires i < |original| && |done| == i && Named({}, ModuleKeyBases(original[..i]), ModuleKeys(done))
    requires NameFor(ModuleKeyBase(original[i], i), SetOf(ModuleKeys(done)), m.key)
    ensures Named({}, ModuleKeyBases(original[..i + 1]), ModuleKeys(done + [m]))
    ensures SetOf(ModuleKeys(done + [m])) == SetOf(ModuleKeys(done)) + {m.key}
  {
    assert {} + SetOf(ModuleKeys(done)) == SetOf(ModuleKeys(done));
    NamedNext({}, ModuleKeyBases(original[..i]), ModuleKeys(done), ModuleKeyBase(original[i], i), m.key);
    assert ModuleKeyBases(original[..i + 1]) == ModuleKeyBases(original[..i]) + [ModuleKeyBase(original[i], i)];
    assert ModuleKeys(done + [m]) == ModuleKeys(done) + [m.key];
  }

  lemma PlanIdsNext(original: seq<Module>, i: nat, done: seq<Module>, m: Module)
    requires i < |original| && SameShape(original[..i], done) && |m.elements| == |original[i].elements|
    requires Named({}, PlanIdBases(original[..i], done), PlanIds(done))
    requires Named(SetOf(PlanIds(done)), ModuleIdBases(original[i], m), ModuleIds(m))
    ensures SameShape(original[..i + 1], done + [m]) && Named({}, PlanIdBases(original[..i + 1], done + [m]), PlanIds(done + [m]))
    ensures SetOf(PlanIds(done + [m])) == SetOf(PlanIds(done)) + SetOf(ModuleIds(m))
  {
    assert {} + SetOf(PlanIds(done)) == SetOf(PlanIds(done));
    assert original[..i + 1][..i] == original[..i] && (done + [m])[..i] == done;
    NamedConcat({}, PlanIdBases(original[..i], done), PlanIds(done), ModuleIdBases(original[i], m), ModuleIds(m));
  }

  // ---------------------------------------------------------------- what it comes to

  /** Names are distinct in their scope, ids across the whole plan, orders count up and counts are right. */
  ghost predicate WellNamed(plan: seq<Module>) {
    && NoRepeats(PlanIds(plan)) && NoRepeats(ModuleKeys(plan))
    && forall i :: 0 <= i < |plan| ==>
         && plan[i].order == i + 1 && plan[i].planned == |plan[i].elements| && NoRepeats(ElementKeys(plan[i].elements))
         && forall k :: 0 <= k < |plan[i].elements| ==>
              NoRepeats(SlotKeys(plan[i].elements[k].slots)) && NoRepeats(Purposes(plan[i].elements[k].prompts))
  }

  lemma PlanIsWellNamed(before: seq<Module>, after: seq<Module>)
    requires NormalPlan(before, after)
    ensures WellNamed(after)
  {
    NamedAreDistinct({}, ModuleKeyBases(before), ModuleKeys(after));
    NamedAreDistinct({}, PlanIdBases(before, after), PlanIds(after));
    forall i | 0 <= i < |after| ensures NoRepeats(ElementKeys(after[i].elements)) {
      NamedAreDistinct({}, ElementKeyBases(before[i].elements), ElementKeys(after[i].elements));
    }
    forall i, k | 0 <= i < |after| && 0 <= k < |after[i].elements|
      ensures NoRepeats(SlotKeys(after[i].elements[k].slots)) && NoRepeats(Purposes(after[i].elements[k].prompts))
    {
      ElementIsWellNamed(before[i].elements[k], after[i].elements[k], after[i].semanticType);
    }
  }

  lemma ElementIsWellNamed(before: Element, e: Element, moduleType: string)
    requires NormalElement(before, e, moduleType)
    ensures NoRepeats(SlotKeys(e.slots)) && NoRepeats(Purposes(e.prompts))
  {
    NamedAreDistinct({}, SlotBases(before.slots), SlotKeys(e.slots));
    NamedAreDistinct({}, PromptBases(before.prompts, e.slots), Purposes(e.prompts));
  }

  // ---------------------------------------------------------------- normalizing a normal plan

  /** Proper names given to distinct bases are kept when they are the bases of a second round. */
  lemma NamedAgain(taken: set<string>, bases: seq<string>, names: seq<string>, names': seq<string>)
    requires Named(taken, bases, names) && Named({}, names, names')
    ensures names' == names
  {
    NamedAreDistinct(taken, bases, names);
    DistinctBasesAreKept(names, names', |names|);
    assert names'[..|names|] == names' && names[..|names|] == names;
  }

  lemma SlotsAgain(before: seq<AssetSlot>, a: seq<AssetSlot>, b: seq<AssetSlot>)
    requires NormalSlots(before, a) && NormalSlots(a, b)
    ensures b == a
  {
    forall i | 0 <= i < |before| ensures Proper(SlotBases(before)[i]) {
      BaseIsProper(before[i].key, if Trim(before[i].kind) == "" then "asset_" + Decimal(i + 1) else Trim(before[i].kind), "item");
    }
    NamesAreProper({}, SlotBases(before), SlotKeys(a));
    forall i | 0 <= i < |a| ensures SlotBases(a)[i] == SlotKeys(a)[i] {
      ProperIsKept(a[i].key, if Trim(a[i].kind) == "" then "asset_" + Decimal(i + 1) else Trim(a[i].kind), "item");
    }
    assert SlotBases(a) == SlotKeys(a);
    NamedAgain({}, SlotBases(before), SlotKeys(a), SlotKeys(b));
    forall i | 0 <= i < |a| ensures b[i] == a[i] { assert b[i].key == SlotKeys(b)[i] == SlotKeys(a)[i]; }
  }

  lemma PromptsAgain(before: seq<PromptSlot>, a: seq<PromptSlot>, b: seq<PromptSlot>, slots: seq<AssetSlot>)
    requires NormalPrompts(before, a, slots) && NormalPrompts(a, b, slots)
    ensures b == a
  {
    var fallback := if |slots| == 1 then slots[0].key else "content";
    forall i | 0 <= i < |before| ensures Proper(PromptBases(before, slots)[i]) { BaseIsProper(before[i].purpose, fallback, "item"); }
    NamesAreProper({}, PromptBases(before, slots), Purposes(a));
    forall i | 0 <= i < |a| ensures PromptBases(a, slots)[i] == Purposes(a)[i] { ProperIsKept(a[i].purpose, fallback, "item"); }
    assert PromptBases(a, slots) == Purposes(a);
    NamedAgain({}, PromptBases(before, slots), Purposes(a), Purposes(b));
    forall i | 0 <= i < |a| ensures b[i] == a[i] { assert b[i].purpose == Purposes(b)[i] == Purposes(a)[i]; }
  }

  lemma ElementAgain(before: Element, e: Element, e': Element, moduleType: string)
    requires NormalElement(before, e, moduleType) && NormalElement(e, e', moduleType)
    requires e'.id == e.id && e'.key == e.key
    ensures e' == e
  {
    SlotsAgain(before.slots, e.slots, e'.slots);
    PromptsAgain(before.prompts, e.prompts, e'.prompts, e.slots);
  }

  lemma ElementKeysAgain(before: seq<Element>, a: seq<Element>, b: seq<Element>)
    requires |a| == |before| && Named({}, ElementKeyBases(before), ElementKeys(a))
    requires |b| == |a| && Named({}, ElementKeyBases(a), ElementKeys(b))
    ensures ElementKeys(b) == ElementKeys(a)
  {
    forall i | 0 <= i < |before| ensures Proper(ElementKeyBases(before)[i]) { BaseIsProper(before[i].key, "element_" + Decimal(i + 1), "item"); }
    NamesAreProper({}, ElementKeyBases(before), ElementKeys(a));
    forall i | 0 <= i < |a| ensures ElementKeyBases(a)[i] == ElementKeys(a)[i] { ProperIsKept(a[i].key, "element_" + Decimal(i + 1), "item"); }
    assert ElementKeyBases(a) == ElementKeys(a);
    NamedAgain({}, ElementKeyBases(before), ElementKeys(a), ElementKeys(b));
  }

  lemma ElementsAgain(before: seq<Element>, a: seq<Element>, b: seq<Element>, moduleType: string)
    requires NormalElements(before, a, moduleType) && NormalElements(a, b, moduleType) && ElementIds(b) == ElementIds(a)
    ensures b == a
  {
    ElementKeysAgain(before, a, b);
    forall i | 0 <= i < |a| ensures b[i] == a[i] {
      assert b[i].id == ElementIds(b)[i] == ElementIds(a)[i] == a[i].id && b[i].key == ElementKeys(b)[i] == ElementKeys(a)[i] == a[i].key;
      ElementAgain(before[i], a[i], b[i], moduleType);
    }
  }

  lemma ModuleAgain(before: Module, m: Module, m': Module, position: nat)
    requires NormalModule(before, m, position) && NormalModule(m, m', position)
    requires ModuleIds(m') == ModuleIds(m) && m'.key == m.key
    ensures m' == m
  {
    assert m'.id == ModuleIds(m')[0] && m.id == ModuleIds(m)[0];
    assert ElementIds(m'.elements) == ModuleIds(m')[1..] == ModuleIds(m)[1..] == ElementIds(m.elements);
    ElementsAgain(before.elements, m.elements, m'.elements, m.semanticType);
  }

  lemma ModuleKeysAgain(before: seq<Module>, a: seq<Module>, b: seq<Module>)
    requires |a| == |before| && Named({}, ModuleKeyBases(before), ModuleKeys(a))
    requires |b| == |a| && Named({}, ModuleKeyBases(a), ModuleKeys(b))
    ensures ModuleKeys(b) == ModuleKeys(a)
  {
    forall i | 0 <= i < |before| ensures Proper(ModuleKeyBases(before)[i]) { BaseIsProper(before[i].key, "module_" + Decimal(i + 1), "item"); }
    NamesAreProper({}, ModuleKeyBases(before), ModuleKeys(a));
    forall i | 0 <= i < |a| ensures ModuleKeyBases(a)[i] == ModuleKeys(a)[i] { ProperIsKept(a[i].key, "module_" + Decimal(i + 1), "item"); }
    assert ModuleKeyBases(a) == ModuleKeys(a);
    NamedAgain({}, ModuleKeyBases(before), ModuleKeys(a), ModuleKeys(b));
  }

  lemma ModuleIdBasesAreProper(before: Module, m: Module)
    requires |before.elements| == |m.elements|
    ensures AllProper(ModuleIdBases(before, m))
  {
    BaseIsProper(before.id, "module_" + m.key, "target");
    forall i | 0 <= i < |m.elements| ensures Proper(ElementIdBases(m.key, before.elements, m.elements)[i]) {
      BaseIsProper(before.elements[i].id, "element_" + m.key + "_" + m.elements[i].key, "target");
    }
  }

  lemma {:induction false} IdBasesAreProper(before: seq<Module>, after: seq<Module>)
    requires SameShape(before, after)
    ensures AllProper(PlanIdBases(before, after))
    decreases |before|
  {
    if before != [] {
      var n := |before| - 1;
      IdBasesAreProper(before[..n], after[..n]);
      ModuleIdBasesAreProper(before[n], after[n]);
    }
  }

  lemma ModuleIdsAreBases(m: Module, m': Module)
    requires |m.elements| == |m'.elements| && AllProper(ModuleIds(m))
    ensures ModuleIdBases(m, m') == ModuleIds(m)
  {
    assert Proper(ModuleIds(m)[0]);
    ProperIsKept(m.id, "module_" + m'.key, "target");
    forall i | 0 <= i < |m.elements| ensures ElementIdBases(m'.key, m.elements, m'.elements)[i] == ElementIds(m.elements)[i] {
      assert Proper(ModuleIds(m)[i + 1]);
      ProperIsKept(m.elements[i].id, "element_" + m'.key + "_" + m'.elements[i].key, "target");
    }
    assert ElementIdBases(m'.key, m.elements, m'.elements) == ElementIds(m.elements);
  }

  /** In a plan whose ids are proper, each id is its own base. */
  lemma {:induction false} IdsAreBases(a: seq<Module>, b: seq<Module>)
    requires SameShape(a, b) && AllProper(PlanIds(a))
    ensures PlanIdBases(a, b) == PlanIds(a)
    decreases |a|
  {
    if a != [] {
      var n := |a| - 1;
      var earlier := PlanIds(a[..n]);
      assert PlanIds(a) == earlier + ModuleIds(a[n]);
      assert forall i :: 0 <= i < |earlier| ==> earlier[i] == PlanIds(a)[i];
      assert forall i :: 0 <= i < |ModuleIds(a[n])| ==> ModuleIds(a[n])[i] == PlanIds(a)[|earlier| + i];
      IdsAreBases(a[..n], b[..n]);
      ModuleIdsAreBases(a[n], b[n]);
    }
  }

  lemma {:induction false} SameIds(a: seq<Module>, b: seq<Module>, i: nat)
    requires SameShape(a, b) && PlanIds(a) == PlanIds(b) && i < |a|
    ensures ModuleIds(a[i]) == ModuleIds(b[i])
    decreases |a|
  {
    var n := |a| - 1;
    var cut := |PlanIds(a)| - |ModuleIds(a[n])|;
    assert |ModuleIds(a[n])| == |ModuleIds(b[n])|;
    assert PlanIds(a)[cut..] == ModuleIds(a[n]) && PlanIds(b)[cut..] == ModuleIds(b[n]);
    assert PlanIds(a[..n]) == PlanIds(a)[..cut] == PlanIds(b)[..cut] == PlanIds(b[..n]);
    if i < n { SameIds(a[..n], b[..n], i); }
  }

  /** Normalizing once is enough: a normal plan comes back as it is. */
  lemma NormalizingAgainChangesNothing(before: seq<Module>, plan: seq<Module>, again: seq<Module>)
    requires NormalPlan(before, plan) && NormalPlan(plan, again)
    ensures again == plan
  {
    ModuleKeysAgain(before, plan, again);
    PlanIdsAgain(before, plan, again);
    forall i | 0 <= i < |plan| ensures again[i] == plan[i] {
      assert again[i].key == ModuleKeys(again)[i] == ModuleKeys(plan)[i] == plan[i].key;
      SameIds(again, plan, i);
      ModuleAgain(before[i], plan[i], again[i], i);
    }
  }

  lemma PlanIdsAgain(before: seq<Module>, plan: seq<Module>, again: seq<Module>)
    requires NormalPlan(before, plan) && NormalPlan(plan, again)
    ensures SameShape(again, plan) && PlanIds(again) == PlanIds(plan)
  {
    IdBasesAreProper(before, plan);
    NamesAreProper({}, PlanIdBases(before, plan), PlanIds(plan));
    IdsAreBases(plan, again);
    NamedAgain({}, PlanIdBases(before, plan), PlanIds(plan), PlanIds(again));
  }
}
