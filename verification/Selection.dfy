/** Which asset slots to generate next, and why there are none: the selector and its no-op classifier. */
module Selection {
  import opened Basics
  import opened StableSort
  import opened Lexicographic

  type Id = string

  datatype MediaKind = Image | Illustration | Keyframe | Audio | Music | Voice | Video | OtherMedia

  datatype SlotStatus = Missing | OutOfDate | Candidate | Active | OtherStatus

  datatype Slot = Slot(
    key: string, namesKeyframe: bool, kind: MediaKind, status: SlotStatus, candidates: nat, required: bool, binding: string)

  datatype Element = Element(id: Id, slots: seq<Slot>)

  datatype Module = Module(order: int, elements: seq<Element>)

  /** A slot in its place. */
  datatype Target = Target(order: int, element: Id, slot: Slot)

  datatype Phase = AutoNext | ElementImages | Keyframes | Videos | AudioTracks | OtherPhase

  /** What the storyboard answers when asked for a slot's generation input. */
  datatype Resolution = Resolved(prompt: string) | NotReady | Broken

  type Resolve = (Id, string) -> Resolution

  datatype Job = Job(target: Id, slot: string, terminal: bool, assembly: bool, storyboard: Id)

  datatype Reason = WaitingCandidateApproval | JobsInFlight | ProductionComplete | DependencyBlocked | NoTargetsForPhase

  datatype Error = ResolveFailed

  // ---------------------------------------------------------------- pure parts

  predicate Blank(s: string) { forall i :: 0 <= i < |s| ==> s[i] == ' ' || s[i] == '\t' || s[i] == '\n' || s[i] == '\r' }

  predicate PhaseMatches(phase: Phase, slot: Slot) {
    match phase
    case AutoNext => true
    case ElementImages => slot.kind.Image? || slot.kind.Illustration?
    case Keyframes => slot.kind.Keyframe? || (slot.kind.Image? && slot.namesKeyframe)
    case Videos => slot.kind.Video?
    case AudioTracks => slot.kind.Audio? || slot.kind.Music? || slot.kind.Voice?
    case OtherPhase => false
  }

  function StageRank(slot: Slot): int {
    if slot.kind.Image? || slot.kind.Illustration? || slot.kind.Keyframe? || slot.namesKeyframe then 10
    else if slot.kind.Audio? || slot.kind.Music? || slot.kind.Voice? then 20
    else if slot.kind.Video? then 30
    else 40
  }

  predicate HasProvider(kind: MediaKind) { !kind.OtherMedia? }

  predicate IsActive(slot: Slot) { slot.status.Active? && !Blank(slot.binding) }

  predicate Wanting(slot: Slot) { slot.status.Missing? || slot.status.OutOfDate? }

  function Busy(jobs: seq<Job>): set<(Id, string)> { set j | j in jobs && !j.terminal :: (j.target, j.slot) }

  // ---------------------------------------------------------------- scan order

  function SlotTargets(order: int, element: Id, slots: seq<Slot>): (r: seq<Target>)
    ensures |r| == |slots| && forall i :: 0 <= i < |slots| ==> r[i] == Target(order, element, slots[i])
  {
    seq(|slots|, i requires 0 <= i < |slots| => Target(order, element, slots[i]))
  }

  function ElementTargets(order: int, elements: seq<Element>): seq<Target> {
    if elements == [] then []
    else
      var n := |elements| - 1;
      ElementTargets(order, elements[..n]) + SlotTargets(order, elements[n].id, elements[n].slots)
  }

  /** Every slot of the storyboard, in the order the loops visit them. */
  function Targets(modules: seq<Module>): seq<Target> {
    if modules == [] then []
    else
      var n := |modules| - 1;
      Targets(modules[..n]) + ElementTargets(modules[n].order, modules[n].elements)
  }

  // ---------------------------------------------------------------- selection

  predicate Considered(t: Target, phase: Phase, busy: set<(Id, string)>) {
    PhaseMatches(phase, t.slot) && Wanting(t.slot) && t.slot.candidates == 0 && HasProvider(t.slot.kind) && (t.element, t.slot.key) !in busy
  }

  predicate Eligible(t: Target, phase: Phase, busy: set<(Id, string)>, resolve: Resolve) {
    Considered(t, phase, busy) && resolve(t.element, t.slot.key).Resolved? && !Blank(resolve(t.element, t.slot.key).prompt)
  }

  predicate Breaks(t: Target, phase: Phase, busy: set<(Id, string)>, resolve: Resolve) {
    Considered(t, phase, busy) && resolve(t.element, t.slot.key).Broken?
  }

  /** By module, then by element id. */
  predicate PlaceLe(a: Target, b: Target) {
    if a.order != b.order then a.order < b.order else LexLe(a.element, b.element)
  }

  predicate StageLe(a: Target, b: Target) {
    if StageRank(a.slot) != StageRank(b.slot) then StageRank(a.slot) < StageRank(b.slot) else PlaceLe(a, b)
  }

  /** The leading targets that share the first one's stage. */
  function FirstStage(s: seq<Target>): seq<Target> {
    if s == [] then [] else TakeStage(s, StageRank(s[0].slot))
  }

  function TakeStage(s: seq<Target>, rank: int): seq<Target> {
    if s == [] || StageRank(s[0].slot) != rank then [] else [s[0]] + TakeStage(s[1..], rank)
  }

  function Chosen(modules: seq<Module>, phase: Phase, busy: set<(Id, string)>, resolve: Resolve): seq<Target> {
    var eligible := Filter(Targets(modules), t => Eligible(t, phase, busy, resolve));
    if phase.AutoNext? then FirstStage(Sort(eligible, StageLe)) else Sort(eligible, PlaceLe)
  }

  lemma PlaceLeTotal()
    ensures TotalOrder(PlaceLe)
  {
    forall x, y ensures PlaceLe(x, y) || PlaceLe(y, x) { LexTotal(x.element, y.element); }
    forall x, y, z | PlaceLe(x, y) && PlaceLe(y, z) ensures PlaceLe(x, z) {
      if x.order == y.order && y.order == z.order { LexTransitive(x.element, y.element, z.element); }
    }
  }

  lemma StageLeTotal()
    ensures TotalOrder(StageLe)
  {
    PlaceLeTotal();
    forall x, y ensures StageLe(x, y) || StageLe(y, x) { assert PlaceLe(x, y) || PlaceLe(y, x); }
    forall x, y, z | StageLe(x, y) && StageLe(y, z) ensures StageLe(x, z) {
      if StageRank(x.slot) == StageRank(y.slot) && StageRank(y.slot) == StageRank(z.slot) { assert PlaceLe(x, y) && PlaceLe(y, z); }
    }
  }

  /** In a list sorted by stage the first stage is the selection of its rank. */
  lemma {:induction false} TakeStageIsFilter(s: seq<Target>, rank: int)
    requires Sorted(s, StageLe) && forall i :: 0 <= i < |s| ==> StageRank(s[i].slot) >= rank
    ensures TakeStage(s, rank) == Filter(s, (t: Target) => StageRank(t.slot) == rank)
    decreases |s|
  {
    var p := (t: Target) => StageRank(t.slot) == rank;
    if s != [] {
      FilterFront(s, p);
      if StageRank(s[0].slot) == rank {
        TakeStageIsFilter(s[1..], rank);
      } else {
        forall i | 0 <= i < |s| ensures !p(s[i]) { assert i > 0 ==> StageLe(s[0], s[i]); }
        FilterNone(s, p);
      }
    }
  }

  ghost predicate LeastRank(rank: int, s: seq<Target>) {
    (exists t :: t in s && StageRank(t.slot) == rank) && (forall t :: t in s ==> rank <= StageRank(t.slot))
  }

  /** `auto_next` returns exactly the eligible slots of the least stage, by module and element, ties in storyboard order. */
  lemma AutoNextIsLeastStage(modules: seq<Module>, busy: set<(Id, string)>, resolve: Resolve)
    ensures var eligible := Filter(Targets(modules), t => Eligible(t, AutoNext, busy, resolve));
            var chosen := Chosen(modules, AutoNext, busy, resolve);
            if eligible == [] then chosen == []
            else exists rank :: LeastRank(rank, eligible) && chosen == Sort(Filter(eligible, (t: Target) => StageRank(t.slot) == rank), PlaceLe)
  {
    var eligible := Filter(Targets(modules), t => Eligible(t, AutoNext, busy, resolve));
    var sorted := Sort(eligible, StageLe);
    StageLeTotal();
    SortMembers(eligible, StageLe);
    SortSorts(eligible, StageLe);
    if eligible != [] {
      var rank := StageRank(sorted[0].slot);
      var p := (t: Target) => StageRank(t.slot) == rank;
      forall i | 0 <= i < |sorted| ensures StageRank(sorted[i].slot) >= rank { assert i > 0 ==> StageLe(sorted[0], sorted[i]); }
      TakeStageIsFilter(sorted, rank);
      FilterSort(eligible, StageLe, p);
      FilterMembers(eligible, p);
      SortAgrees(Filter(eligible, p), StageLe, PlaceLe);
      assert sorted[0] in eligible;
      forall t | t in eligible ensures rank <= StageRank(t.slot) {
        assert t in sorted;
        var i :| 0 <= i < |sorted| && sorted[i] == t;
      }
      assert LeastRank(rank, eligible);
    }
  }

  // ---------------------------------------------------------------- the selecting loops

  ghost predicate AnyBreaks(s: seq<Target>, phase: Phase, busy: set<(Id, string)>, resolve: Resolve) {
    exists t :: t in s && Breaks(t, phase, busy, resolve)
  }

  method SelectSlots(order: int, element: Element, phase: Phase, busy: set<(Id, string)>, resolve: Resolve) returns (broken: bool, found: seq<Target>)
    ensures broken <==> AnyBreaks(SlotTargets(order, element.id, element.slots), phase, busy, resolve)
    ensures !broken ==> found == Filter(SlotTargets(order, element.id, element.slots), t => Eligible(t, phase, busy, resolve))
  {
    ghost var all, p := SlotTargets(order, element.id, element.slots), t => Eligible(t, phase, busy, resolve);
    found := [];
    for i := 0 to |element.slots|
      invariant found == Filter(all[..i], p)
      invariant forall k :: 0 <= k < i ==> !Breaks(all[k], phase, busy, resolve)
    {
      var slot := element.slots[i];
      assert all[..i + 1] == all[..i] + [all[i]];
      FilterAppend(all[..i], all[i], p);
      if !PhaseMatches(phase, slot) || !Wanting(slot) || slot.candidates > 0 { continue; }
      if !HasProvider(slot.kind) { continue; }
      if (element.id, slot.key) in busy { continue; }
      var input := resolve(element.id, slot.key);
      if input.NotReady? { continue; }
      if input.Broken? {
        assert all[i] in all;
        return true, [];
      }
      if Blank(input.prompt) { continue; }
      found := found + [Target(order, element.id, slot)];
    }
    assert all[..|all|] == all;
    broken := false;
  }

  method SelectElements(m: Module, phase: Phase, busy: set<(Id, string)>, resolve: Resolve) returns (broken: bool, found: seq<Target>)
    ensures broken <==> AnyBreaks(ElementTargets(m.order, m.elements), phase, busy, resolve)
    ensures !broken ==> found == Filter(ElementTargets(m.order, m.elements), t => Eligible(t, phase, busy, resolve))
  {
    ghost var p := t => Eligible(t, phase, busy, resolve);
    found := [];
    for i := 0 to |m.elements|
      invariant found == Filter(ElementTargets(m.order, m.elements[..i]), p)
      invariant !AnyBreaks(ElementTargets(m.order, m.elements[..i]), phase, busy, resolve)
    {
      var bad, more := SelectSlots(m.order, m.elements[i], phase, busy, resolve);
      assert m.elements[..i + 1][..i] == m.elements[..i];
      FilterConcat(ElementTargets(m.order, m.elements[..i]), SlotTargets(m.order, m.elements[i].id, m.elements[i].slots), p);
      if bad {
        ElementsGrow(m.order, m.elements, i);
        return true, [];
      }
      found := found + more;
    }
    assert m.elements[..|m.elements|] == m.elements;
    broken := false;
  }

  lemma {:induction false} ElementsGrow(order: int, elements: seq<Element>, i: nat)
    requires i < |elements|
    ensures forall t :: t in SlotTargets(order, elements[i].id, elements[i].slots) ==> t in ElementTargets(order, elements)
    decreases |elements|
  {
    var n := |elements| - 1;
    if i < n { ElementsGrow(order, elements[..n], i); }
  }

  lemma {:induction false} TargetsGrow(modules: seq<Module>, i: nat)
    requires i < |modules|
    ensures forall t :: t in ElementTargets(modules[i].order, modules[i].elements) ==> t in Targets(modules)
    decreases |modules|
  {
    var n := |modules| - 1;
    if i < n { TargetsGrow(modules[..n], i); }
  }

  method CutToFirstStage(s: seq<Target>) returns (r: seq<Target>)
    ensures r == FirstStage(s)
  {
    if s == [] { return []; }
    var rank, end := StageRank(s[0].slot), 0;
    while end < |s| && StageRank(s[end].slot) == rank
      invariant end <= |s| && TakeStage(s, rank) == s[..end] + TakeStage(s[end..], rank)
    {
      assert s[end..][1..] == s[end + 1..];
      end := end + 1;
    }
    r := s[..end];
  }

  /** `selectGenerationTargets` */
  method SelectTargets(modules: seq<Module>, phase: Phase, busy: set<(Id, string)>, resolve: Resolve) returns (result: Result<seq<Target>, Error>)
    ensures result.Err? <==> AnyBreaks(Targets(modules), phase, busy, resolve)
    ensures result.Ok? ==> result.value == Chosen(modules, phase, busy, resolve)
  {
    ghost var p := t => Eligible(t, phase, busy, resolve);
    var found := [];
    for i := 0 to |modules|
      invariant found == Filter(Targets(modules[..i]), p)
      invariant !AnyBreaks(Targets(modules[..i]), phase, busy, resolve)
    {
      var bad, more := SelectElements(modules[i], phase, busy, resolve);
      assert modules[..i + 1][..i] == modules[..i];
      FilterConcat(Targets(modules[..i]), ElementTargets(modules[i].order, modules[i].elements), p);
      if bad {
        TargetsGrow(modules, i);
        return Err(ResolveFailed);
      }
      found := found + more;
    }
    assert modules[..|modules|] == modules;
    if !phase.AutoNext? { return Ok(Sort(found, PlaceLe)); }
    var cut := CutToFirstStage(Sort(found, StageLe));
    return Ok(cut);
  }

  // ---------------------------------------------------------------- classification

  /** What the classifier remembers of the slots it has seen. */
  datatype Flags = Flags(candidate: bool, blocked: bool, ready: bool, complete: bool, requiredReady: bool)

  const CLEAR := Flags(false, false, false, true, true)

  /** One slot's mark on the flags. */
  function Mark(f: Flags, t: Target, resolve: Resolve): Flags {
    var active, held := IsActive(t.slot), t.slot.status.Candidate? || t.slot.candidates > 0;
    var g := f.(requiredReady := f.requiredReady && (t.slot.required ==> active),
                candidate := f.candidate || held, complete := f.complete && !held);
    if !HasProvider(t.slot.kind) then g.(blocked := g.blocked || (t.slot.required && !active))
    else if active && t.slot.candidates == 0 then g
    else
      var h := g.(complete := false);
      if Wanting(t.slot) then
        var input := resolve(t.element, t.slot.key);
        if input.Resolved? && !Blank(input.prompt) then h.(ready := true) else h.(blocked := true)
      else if t.slot.status.Candidate? then h
      else h.(blocked := true)
  }

  /** The classifier stops at the first slot whose input cannot be resolved. */
  predicate Stops(t: Target, resolve: Resolve) {
    HasProvider(t.slot.kind) && Wanting(t.slot) && resolve(t.element, t.slot.key).Broken?
  }

  function MarkAll(f: Flags, s: seq<Target>, resolve: Resolve): Flags {
    if s == [] then f else Mark(MarkAll(f, s[..|s| - 1], resolve), s[|s| - 1], resolve)
  }

  /** Jobs that count as in flight for this storyboard. */
  predicate Counts(j: Job, storyboard: Id) { !j.terminal && !j.assembly && (Blank(j.storyboard) || j.storyboard == storyboard) }

  function ReasonFor(f: Flags, inFlight: bool): Reason {
    if f.candidate then WaitingCandidateApproval
    else if inFlight then JobsInFlight
    else if f.complete && f.requiredReady then ProductionComplete
    else if f.blocked then DependencyBlocked
    else if f.ready then NoTargetsForPhase
    else DependencyBlocked
  }

  ghost predicate AnyStops(s: seq<Target>, resolve: Resolve) { exists t :: t in s && Stops(t, resolve) }

  ghost predicate AnyCounts(jobs: seq<Job>, storyboard: Id) { exists j :: j in jobs && Counts(j, storyboard) }

  method FlatTargets(modules: seq<Module>) returns (all: seq<Target>)
    ensures all == Targets(modules)
  {
    all := [];
    for i := 0 to |modules|
      invariant all == Targets(modules[..i])
    {
      var m := modules[i];
      var part: seq<Target> := [];
      for k := 0 to |m.elements|
        invariant part == ElementTargets(m.order, m.elements[..k])
      {
        assert m.elements[..k + 1][..k] == m.elements[..k];
        part := part + SlotTargets(m.order, m.elements[k].id, m.elements[k].slots);
      }
      assert m.elements[..|m.elements|] == m.elements && modules[..i + 1][..i] == modules[..i];
      all := all + part;
    }
    assert modules[..|modules|] == modules;
  }

  method AnyInFlight(jobs: seq<Job>, storyboard: Id) returns (inFlight: bool)
    ensures inFlight <==> AnyCounts(jobs, storyboard)
  {
    inFlight := false;
    for i := 0 to |jobs|
      invariant inFlight <==> exists k :: 0 <= k < i && Counts(jobs[k], storyboard)
    {
      if jobs[i].terminal || jobs[i].assembly { continue; }
      if !Blank(jobs[i].storyboard) && jobs[i].storyboard != storyboard { continue; }
      inFlight := true;
    }
  }

  /** The body of the classifier's innermost loop. */
  method Inspect(before: Flags, t: Target, resolve: Resolve) returns (stop: bool, flags: Flags)
    ensures stop <==> Stops(t, resolve)
    ensures !stop ==> flags == Mark(before, t, resolve)
  {
    flags := before;
    var active := t.slot.status.Active? && !Blank(t.slot.binding);
    if t.slot.required && !active { flags := flags.(requiredReady := false); }
    if t.slot.status.Candidate? || t.slot.candidates > 0 { flags := flags.(candidate := true, complete := false); }
    if !HasProvider(t.slot.kind) {
      if t.slot.required && !active { flags := flags.(blocked := true); }
      return false, flags;
    }
    if active && t.slot.candidates == 0 { return false, flags; }
    flags := flags.(complete := false);
    if t.slot.status.Missing? || t.slot.status.OutOfDate? {
      var input := resolve(t.element, t.slot.key);
      if input.NotReady? { return false, flags.(blocked := true); }
      if input.Broken? { return true, flags; }
      if Blank(input.prompt) { return false, flags.(blocked := true); }
      return false, flags.(ready := true);
    }
    if t.slot.status.Candidate? { return false, flags.(candidate := true); }
    return false, flags.(blocked := true);
  }

  /** `classifyGenerateMediaNoOp` */
  method Classify(modules: seq<Module>, jobs: seq<Job>, storyboard: Id, resolve: Resolve) returns (result: Result<Reason, Error>)
    ensures result.Err? <==> AnyStops(Targets(modules), resolve)
    ensures result.Ok? ==> result.value == ReasonFor(MarkAll(CLEAR, Targets(modules), resolve), AnyCounts(jobs, storyboard))
  {
    var inFlight := AnyInFlight(jobs, storyboard);
    var all := FlatTargets(modules);
    var flags := CLEAR;
    for i := 0 to |all|
      invariant flags == MarkAll(CLEAR, all[..i], resolve)
      invariant forall k :: 0 <= k < i ==> !Stops(all[k], resolve)
    {
      assert all[..i + 1][..i] == all[..i];
      var stop, marked := Inspect(flags, all[i], resolve);
      if stop { return Err(ResolveFailed); }
      flags := marked;
    }
    assert all[..|all|] == all;
    return Ok(ReasonFor(flags, inFlight));
  }

  // ---------------------------------------------------------------- agreement

  /** `requiredMissing` */
  ghost predicate RequiredMissing(t: Target) { t.slot.required && (t.slot.binding == "" || !t.slot.status.Active?) }

  predicate IsReady(t: Target, resolve: Resolve) {
    HasProvider(t.slot.kind) && Wanting(t.slot) && resolve(t.element, t.slot.key).Resolved? && !Blank(resolve(t.element, t.slot.key).prompt)
  }

  predicate IsHeld(t: Target) { t.slot.status.Candidate? || t.slot.candidates > 0 }

  /** A slot that still needs work which the classifier cannot see begin. */
  predicate IsBlocked(t: Target, resolve: Resolve) {
    if !HasProvider(t.slot.kind) then t.slot.required && !IsActive(t.slot)
    else if Wanting(t.slot) then !IsReady(t, resolve)
    else !t.slot.status.Candidate? && !(IsActive(t.slot) && t.slot.candidates == 0)
  }

  /** What one slot does to each flag. */
  lemma MarkMeans(f: Flags, t: Target, resolve: Resolve)
    ensures Mark(f, t, resolve).requiredReady == (f.requiredReady && (t.slot.required ==> IsActive(t.slot)))
    ensures Mark(f, t, resolve).candidate == (f.candidate || IsHeld(t))
    ensures Mark(f, t, resolve).ready == (f.ready || IsReady(t, resolve))
    ensures Mark(f, t, resolve).blocked == (f.blocked || IsBlocked(t, resolve))
    ensures Mark(f, t, resolve).complete ==> f.complete && !IsReady(t, resolve)
  {
  }

  /** What each flag stands for after any number of slots. */
  lemma {:induction false} MarksMean(s: seq<Target>, resolve: Resolve)
    ensures var f := MarkAll(CLEAR, s, resolve);
            && (f.requiredReady <==> forall t :: t in s ==> (t.slot.required ==> IsActive(t.slot)))
            && (f.candidate <==> exists t :: t in s && IsHeld(t))
            && (f.ready <==> exists t :: t in s && IsReady(t, resolve))
            && (f.blocked <==> exists t :: t in s && IsBlocked(t, resolve))
            && (f.complete ==> !f.ready)
    decreases |s|
  {
    if s != [] {
      var n := |s| - 1;
      MarksMean(s[..n], resolve);
      MarkMeans(MarkAll(CLEAR, s[..n], resolve), s[n], resolve);
      assert forall t :: t in s <==> t in s[..n] || t == s[n] by { SplitLast(s); }
    }
  }

  /** When the classifier reports completion, no required slot is missing. */
  lemma CompleteMeansNothingMissing(modules: seq<Module>, inFlight: bool, resolve: Resolve)
    requires ReasonFor(MarkAll(CLEAR, Targets(modules), resolve), inFlight).ProductionComplete?
    ensures forall t :: t in Targets(modules) ==> !RequiredMissing(t)
  {
    MarksMean(Targets(modules), resolve);
  }

  /** Jobs in flight belong to this storyboard and are not assembly jobs. */
  ghost predicate OwnJobs(jobs: seq<Job>, storyboard: Id) {
    forall j :: j in jobs && !j.terminal ==> Counts(j, storyboard)
  }

  lemma ChosenIsEmpty(modules: seq<Module>, busy: set<(Id, string)>, resolve: Resolve)
    ensures Chosen(modules, AutoNext, busy, resolve) == [] <==> Filter(Targets(modules), t => Eligible(t, AutoNext, busy, resolve)) == []
  {
    var eligible := Filter(Targets(modules), t => Eligible(t, AutoNext, busy, resolve));
    SortMembers(eligible, StageLe);
    var sorted := Sort(eligible, StageLe);
    if sorted != [] { assert FirstStage(sorted)[0] == sorted[0]; }
  }

  /** A ready slot that selection does not return is held by a job. */
  lemma ReadyIsBusy(modules: seq<Module>, jobs: seq<Job>, resolve: Resolve, t: Target)
    requires Chosen(modules, AutoNext, Busy(jobs), resolve) == [] && t in Targets(modules) && IsReady(t, resolve) && t.slot.candidates == 0
    ensures exists j :: j in jobs && !j.terminal && j.target == t.element && j.slot == t.slot.key
  {
    var p := t => Eligible(t, AutoNext, Busy(jobs), resolve);
    ChosenIsEmpty(modules, Busy(jobs), resolve);
    FilterMembers(Targets(modules), p);
    assert t !in Filter(Targets(modules), p);
    assert (t.element, t.slot.key) in Busy(jobs);
  }

  /** The classifier's answer to an empty selection, from slots and jobs alone. */
  ghost predicate Unexplained(s: seq<Target>, jobs: seq<Job>, storyboard: Id, resolve: Resolve) {
    && (exists t :: t in s && IsReady(t, resolve))
    && (forall t :: t in s ==> !IsHeld(t) && !IsBlocked(t, resolve))
    && (forall j :: j in jobs && !j.terminal ==> !Counts(j, storyboard))
  }

  /**
   When `auto_next` finds nothing, the classifier answers that the phase has no targets exactly if some slot is ready,
   none is held or blocked, and no job counts; the ready slot is then taken by a job that does not count.
   */
  lemma NoTargetsIffUnexplained(modules: seq<Module>, jobs: seq<Job>, storyboard: Id, resolve: Resolve)
    requires Chosen(modules, AutoNext, Busy(jobs), resolve) == []
    ensures var s := Targets(modules);
            && (ReasonFor(MarkAll(CLEAR, s, resolve), AnyCounts(jobs, storyboard)).NoTargetsForPhase? <==> Unexplained(s, jobs, storyboard, resolve))
            && (Unexplained(s, jobs, storyboard, resolve) ==>
                  exists j, t :: j in jobs && t in s && IsReady(t, resolve)
                                 && !j.terminal && j.target == t.element && j.slot == t.slot.key && !Counts(j, storyboard))
  {
    var s := Targets(modules);
    MarksMean(s, resolve);
    if Unexplained(s, jobs, storyboard, resolve) {
      var t :| t in s && IsReady(t, resolve);
      ReadyIsBusy(modules, jobs, resolve, t);
    }
  }

  /** So selection and classification agree whenever the jobs in flight are this storyboard's own. */
  lemma EmptySelectionIsExplained(modules: seq<Module>, jobs: seq<Job>, storyboard: Id, resolve: Resolve)
    requires Chosen(modules, AutoNext, Busy(jobs), resolve) == [] && OwnJobs(jobs, storyboard)
    ensures !ReasonFor(MarkAll(CLEAR, Targets(modules), resolve), AnyCounts(jobs, storyboard)).NoTargetsForPhase?
  {
    NoTargetsIffUnexplained(modules, jobs, storyboard, resolve);
  }

  lemma OneSlot(order: int, element: Id, slot: Slot)
    ensures Targets([Module(order, [Element(element, [slot])])]) == [Target(order, element, slot)]
  {
    var e := Element(element, [slot]);
    assert SlotTargets(order, element, [slot]) == [Target(order, element, slot)];
    assert [e][..0] == [] && ElementTargets(order, [e]) == [Target(order, element, slot)];
    assert [Module(order, [e])][..0] == [];
  }

  /** Without that: a job that does not count hides its slot from selection but not from the classifier. */
  lemma UncountedJobConfuses(t: Target, job: Job, storyboard: Id, resolve: Resolve)
    requires IsReady(t, resolve) && !IsHeld(t)
    requires job.target == t.element && job.slot == t.slot.key && !job.terminal && !Counts(job, storyboard)
    ensures var modules := [Module(t.order, [Element(t.element, [t.slot])])];
            && Chosen(modules, AutoNext, Busy([job]), resolve) == []
            && ReasonFor(MarkAll(CLEAR, Targets(modules), resolve), AnyCounts([job], storyboard)).NoTargetsForPhase?
  {
    var modules, jobs := [Module(t.order, [Element(t.element, [t.slot])])], [job];
    OneSlot(t.order, t.element, t.slot);
    assert jobs[0] in jobs && (t.element, t.slot.key) in Busy(jobs);
    var p := x => Eligible(x, AutoNext, Busy(jobs), resolve);
    assert [t][..0] == [] && Filter([t], p) == [];
    ChosenIsEmpty(modules, Busy(jobs), resolve);
    NoTargetsIffUnexplained(modules, jobs, storyboard, resolve);
    assert t in Targets(modules);
  }

  /** A job of another storyboard on the same slot is such a job. */
  lemma ForeignJobConfuses(t: Target, storyboard: Id, other: Id, resolve: Resolve)
    requires IsReady(t, resolve) && !IsHeld(t) && other != storyboard && !Blank(other)
    ensures var modules, jobs := [Module(t.order, [Element(t.element, [t.slot])])], [Job(t.element, t.slot.key, false, false, other)];
            && Chosen(modules, AutoNext, Busy(jobs), resolve) == []
            && ReasonFor(MarkAll(CLEAR, Targets(modules), resolve), AnyCounts(jobs, storyboard)).NoTargetsForPhase?
  {
    UncountedJobConfuses(t, Job(t.element, t.slot.key, false, false, other), storyboard, resolve);
  }

  /**
   So is an assembly job, of whatever storyboard. This is about the arguments of the two functions: the program itself
   gives assembly jobs a target of their own, which no element slot has.
   */
  lemma AssemblyJobConfuses(t: Target, storyboard: Id, any: Id, resolve: Resolve)
    requires IsReady(t, resolve) && !IsHeld(t)
    ensures var modules, jobs := [Module(t.order, [Element(t.element, [t.slot])])], [Job(t.element, t.slot.key, false, true, any)];
            && Chosen(modules, AutoNext, Busy(jobs), resolve) == []
            && ReasonFor(MarkAll(CLEAR, Targets(modules), resolve), AnyCounts(jobs, storyboard)).NoTargetsForPhase?
  {
    UncountedJobConfuses(t, Job(t.element, t.slot.key, false, true, any), storyboard, resolve);
  }
}
