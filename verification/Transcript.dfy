/** The causal transcript window: physical rows are grouped by run, cut off by run, ordered by run and limited by run. */
module Transcript {
  import opened Basics
  import opened StableSort
  import opened Lexicographic

  datatype Record = Record(id: string, run: string, number: int, user: bool, text: string)

  datatype Window = Window(current: string, through: Option<int>, limit: int)

  datatype Group = Group(key: string, messages: seq<Record>, userAt: Option<int>, firstAt: int, current: bool)

  // ---------------------------------------------------------------- runs

  /** Rows without a run stand alone. */
  function KeyOf(r: Record): string { if r.run == "" then "message:" + r.id else r.run }

  /** The rows of one run, in log order. */
  function RowsOf(s: seq<Record>, key: string): seq<Record> { Filter(s, (r: Record) => KeyOf(r) == key) }

  /** Runs by first appearance. */
  function Keys(s: seq<Record>): seq<string> {
    if s == [] then []
    else
      var rest := Keys(s[..|s| - 1]);
      var key := KeyOf(s[|s| - 1]);
      if key in rest then rest else rest + [key]
  }

  function Earlier(a: Option<int>, n: int): Option<int> { if a.None? || n < a.value then Some(n) else a }

  /** The earliest user row. */
  function UserAt(s: seq<Record>): Option<int> {
    if s == [] then None
    else
      var rest := UserAt(s[..|s| - 1]);
      if s[|s| - 1].user then Earlier(rest, s[|s| - 1].number) else rest
  }

  function FirstAt(s: seq<Record>): int
    requires s != []
  {
    if |s| == 1 then s[0].number
    else
      var rest := FirstAt(s[..|s| - 1]);
      if s[|s| - 1].number < rest then s[|s| - 1].number else rest
  }

  predicate HasCurrent(s: seq<Record>, current: string) { current != "" && exists i :: 0 <= i < |s| && s[i].id == current }

  function Summary(key: string, s: seq<Record>, current: string): Group
    requires s != []
  {
    Group(key, s, UserAt(s), FirstAt(s), HasCurrent(s, current))
  }

  lemma SummaryGrows(key: string, s: seq<Record>, r: Record, current: string)
    requires s != []
    ensures var g := Summary(key, s, current);
            Summary(key, s + [r], current) ==
              Group(key, s + [r], if r.user then Earlier(g.userAt, r.number) else g.userAt,
                    if r.number < g.firstAt then r.number else g.firstAt, g.current || (current != "" && r.id == current))
  {
    assert (s + [r])[..|s|] == s;
    if HasCurrent(s, current) {
      var i :| 0 <= i < |s| && s[i].id == current;
      assert (s + [r])[i].id == current;
    }
    if current != "" && r.id == current { assert (s + [r])[|s|].id == current; }
  }

  lemma SummaryStarts(key: string, r: Record, current: string)
    ensures Summary(key, [r], current) == Group(key, [r], if r.user then Some(r.number) else None, r.number, current != "" && r.id == current)
  {
    assert [r][..0] == [] && UserAt([r][..0]).None?;
    if r.id == current { assert [r][0].id == current; }
  }

  lemma {:induction false} KeysKnow(s: seq<Record>)
    ensures forall i :: 0 <= i < |s| ==> KeyOf(s[i]) in Keys(s)
    ensures forall k :: k in Keys(s) ==> RowsOf(s, k) != []
    ensures forall i, k :: 0 <= i < k < |Keys(s)| ==> Keys(s)[i] != Keys(s)[k]
    decreases |s|
  {
    if s != [] {
      var n := |s| - 1;
      KeysKnow(s[..n]);
      forall k | k in Keys(s) ensures RowsOf(s, k) != [] {
        if k != KeyOf(s[n]) { assert k in Keys(s[..n]); }
      }
    }
  }

  /** One group per run, in order of first appearance. */
  ghost predicate Grouped(s: seq<Record>, current: string, groups: seq<Group>) {
    && |groups| == |Keys(s)|
    && forall i :: 0 <= i < |groups| ==> RowsOf(s, Keys(s)[i]) != [] && groups[i] == Summary(Keys(s)[i], RowsOf(s, Keys(s)[i]), current)
  }

  lemma RowsExtend(s: seq<Record>, r: Record, key: string)
    ensures RowsOf(s + [r], key) == if KeyOf(r) == key then RowsOf(s, key) + [r] else RowsOf(s, key)
  {
    FilterAppend(s, r, (x: Record) => KeyOf(x) == key);
  }

  lemma NoRowsYet(s: seq<Record>, key: string)
    requires key !in Keys(s)
    ensures RowsOf(s, key) == []
  {
    KeysKnow(s);
    FilterNone(s, (r: Record) => KeyOf(r) == key);
  }

  lemma OldRunGrows(s: seq<Record>, r: Record, current: string, groups: seq<Group>, at: nat)
    requires Grouped(s, current, groups) && at < |groups| && Keys(s)[at] == KeyOf(r)
    ensures Keys(s + [r]) == Keys(s)
    ensures Grouped(s + [r], current, groups[at := Summary(KeyOf(r), groups[at].messages + [r], current)])
  {
    assert (s + [r])[..|s|] == s;
    KeysKnow(s);
    var groups' := groups[at := Summary(KeyOf(r), groups[at].messages + [r], current)];
    forall i | 0 <= i < |groups'|
      ensures RowsOf(s + [r], Keys(s)[i]) != [] && groups'[i] == Summary(Keys(s)[i], RowsOf(s + [r], Keys(s)[i]), current)
    {
      RowsExtend(s, r, Keys(s)[i]);
    }
  }

  lemma NewRunStarts(s: seq<Record>, r: Record, current: string, groups: seq<Group>)
    requires Grouped(s, current, groups) && KeyOf(r) !in Keys(s)
    ensures Keys(s + [r]) == Keys(s) + [KeyOf(r)]
    ensures Grouped(s + [r], current, groups + [Summary(KeyOf(r), [r], current)])
  {
    assert (s + [r])[..|s|] == s;
    NoRowsYet(s, KeyOf(r));
    var groups', keys' := groups + [Summary(KeyOf(r), [r], current)], Keys(s) + [KeyOf(r)];
    forall i | 0 <= i < |groups'|
      ensures RowsOf(s + [r], keys'[i]) != [] && groups'[i] == Summary(keys'[i], RowsOf(s + [r], keys'[i]), current)
    {
      RowsExtend(s, r, keys'[i]);
    }
  }

  /** What the loop body writes into a group that already exists. */
  method Extend(key: string, before: Group, record: Record, current: string) returns (group: Group)
    requires before.messages != [] && before == Summary(key, before.messages, current)
    ensures group == Summary(key, before.messages + [record], current)
  {
    SummaryGrows(key, before.messages, record, current);
    group := before.(messages := before.messages + [record]);
    if record.number < group.firstAt { group := group.(firstAt := record.number); }
    if record.user {
      if group.userAt.None? || record.number < group.userAt.value { group := group.(userAt := Some(record.number)); }
    }
    if current != "" && record.id == current { group := group.(current := true); }
  }

  /** The grouping loop, with its index from key to group. */
  method BuildGroups(physical: seq<Record>, current: string) returns (groups: seq<Group>)
    ensures Grouped(physical, current, groups)
  {
    groups := [];
    var byKey: map<string, nat> := map[];
    for i := 0 to |physical|
      invariant Grouped(physical[..i], current, groups)
      invariant forall k :: k in byKey <==> k in Keys(physical[..i])
      invariant forall k :: k in byKey ==> byKey[k] < |groups| && Keys(physical[..i])[byKey[k]] == k
    {
      var record := physical[i];
      var key := KeyOf(record);
      assert physical[..i + 1] == physical[..i] + [record];
      if key in byKey {
        var at := byKey[key];
        OldRunGrows(physical[..i], record, current, groups, at);
        var group := Extend(key, groups[at], record, current);
        groups := groups[at := group];
      } else {
        SummaryStarts(key, record, current);
        NewRunStarts(physical[..i], record, current, groups);
        byKey := byKey[key := |groups|];
        groups := groups + [Group(key, [record], if record.user then Some(record.number) else None, record.number, current != "" && record.id == current)];
      }
    }
    assert physical[..|physical|] == physical;
  }

  // ---------------------------------------------------------------- orders

  predicate LogLe(a: Record, b: Record) { if a.number != b.number then a.number < b.number else LexLe(a.id, b.id) }

  predicate SpeechLe(a: Record, b: Record) { if a.user != b.user then a.user else LogLe(a, b) }

  function Lead(g: Group): int { if g.userAt.Some? then g.userAt.value else g.firstAt }

  predicate RunLe(a: Group, b: Group) {
    if a.current != b.current then b.current else if Lead(a) != Lead(b) then Lead(a) < Lead(b) else LexLe(a.key, b.key)
  }

  lemma LogLeTotal()
    ensures TotalOrder(LogLe)
  {
    forall x, y ensures LogLe(x, y) || LogLe(y, x) { LexTotal(x.id, y.id); }
    forall x, y, z | LogLe(x, y) && LogLe(y, z) ensures LogLe(x, z) {
      if x.number == y.number && y.number == z.number { LexTransitive(x.id, y.id, z.id); }
    }
  }

  lemma RunLeTotal()
    ensures TotalOrder(RunLe)
  {
    forall x, y ensures RunLe(x, y) || RunLe(y, x) { LexTotal(x.key, y.key); }
    forall x, y, z | RunLe(x, y) && RunLe(y, z) ensures RunLe(x, z) {
      if LexLe(x.key, y.key) && LexLe(y.key, z.key) { LexTransitive(x.key, y.key, z.key); }
    }
  }

  // ---------------------------------------------------------------- the window

  /** The cutoff hides a run whose user spoke after it. */
  predicate Shown(userAt: Option<int>, through: Option<int>) {
    !(through.Some? && userAt.Some? && userAt.value > through.value)
  }

  function Visible(groups: seq<Group>, through: Option<int>): seq<Group> {
    if groups == [] then []
    else
      var n := |groups| - 1;
      var rest := Visible(groups[..n], through);
      if Shown(groups[n].userAt, through) then rest + [groups[n].(messages := Sort(groups[n].messages, SpeechLe))] else rest
  }

  function Size(groups: seq<Group>): int {
    if groups == [] then 0 else |groups[0].messages| + Size(groups[1..])
  }

  function Flatten(groups: seq<Group>): seq<Record> {
    if groups == [] then [] else Flatten(groups[..|groups| - 1]) + groups[|groups| - 1].messages
  }

  /** Keeping from `first` on stays within the limit or is just the last run, and keeping one run more would not. */
  ghost predicate LongestSuffix(groups: seq<Group>, limit: int, first: nat) {
    && first <= |groups|
    && (limit <= 0 ==> first == 0)
    && (limit > 0 && groups != [] ==> first < |groups|)
    && (limit > 0 && first < |groups| - 1 ==> Size(groups[first..]) <= limit)
    && (limit > 0 && 0 < first < |groups| ==> Size(groups[first - 1..]) > limit)
  }

  method CutToLimit(groups: seq<Group>, limit: int) returns (first: nat)
    ensures LongestSuffix(groups, limit, first)
  {
    if limit <= 0 { return 0; }
    first := |groups|;
    var count, index := 0, |groups|;
    while index > 0
      invariant 0 <= index == first <= |groups| && count == Size(groups[first..])
      invariant first < |groups| - 1 ==> count <= limit
      decreases index
    {
      index := index - 1;
      var size := |groups[index].messages|;
      assert groups[index..][1..] == groups[index + 1..];
      if first < |groups| && count + size > limit { break; }
      first := index;
      count := count + size;
    }
  }

  method Collect(groups: seq<Group>) returns (out: seq<Record>)
    ensures out == Flatten(groups)
  {
    out := [];
    for i := 0 to |groups|
      invariant out == Flatten(groups[..i])
    {
      assert groups[..i + 1][..i] == groups[..i];
      out := out + groups[i].messages;
    }
    assert groups[..|groups|] == groups;
  }

  method KeepVisible(groups: seq<Group>, through: Option<int>) returns (visible: seq<Group>)
    ensures visible == Visible(groups, through)
  {
    visible := [];
    for i := 0 to |groups|
      invariant visible == Visible(groups[..i], through)
    {
      assert groups[..i + 1][..i] == groups[..i];
      if through.Some? && groups[i].userAt.Some? && groups[i].userAt.value > through.value { continue; }
      visible := visible + [groups[i].(messages := Sort(groups[i].messages, SpeechLe))];
    }
    assert groups[..|groups|] == groups;
  }

  /** The runs of the log that the window shows, in causal order. */
  ghost predicate Ordered(records: seq<Record>, w: Window, runs: seq<Group>) {
    exists groups: seq<Group> :: Grouped(Sort(records, LogLe), w.current, groups) && runs == Sort(Visible(groups, w.through), RunLe)
  }

  /** The transcript: the longest admissible suffix of the ordered runs, run by run. */
  ghost predicate IsTranscript(records: seq<Record>, w: Window, out: seq<Record>) {
    exists runs: seq<Group>, first: nat :: Ordered(records, w, runs) && LongestSuffix(runs, w.limit, first) && out == Flatten(runs[first..])
  }

  /** `ApplyMessageWindow` */
  method ApplyMessageWindow(records: seq<Record>, w: Window) returns (out: seq<Record>)
    ensures IsTranscript(records, w, out)
  {
    var physical := Sort(records, LogLe);
    var groups := BuildGroups(physical, w.current);
    var visible := KeepVisible(groups, w.through);
    visible := Sort(visible, RunLe);
    assert Ordered(records, w, visible);
    var first := CutToLimit(visible, w.limit);
    out := Collect(visible[first..]);
  }

  lemma {:induction false} SizeShrinks(groups: seq<Group>, i: nat, k: nat)
    requires i <= k <= |groups|
    ensures Size(groups[k..]) <= Size(groups[i..])
    decreases k - i
  {
    if i < k {
      assert groups[i..][1..] == groups[i + 1..];
      SizeShrinks(groups, i + 1, k);
    }
  }

  /** There is one longest suffix. */
  lemma SuffixIsUnique(groups: seq<Group>, limit: int, a: nat, b: nat)
    requires LongestSuffix(groups, limit, a) && LongestSuffix(groups, limit, b)
    ensures a == b
  {
    if limit > 0 && a < b { SizeShrinks(groups, a, b - 1); }
    if limit > 0 && b < a { SizeShrinks(groups, b, a - 1); }
  }

  // ---------------------------------------------------------------- input order does not matter

  ghost predicate UniqueIds(records: seq<Record>) {
    forall i, k :: 0 <= i < k < |records| ==> records[i].id != records[k].id
  }

  lemma SameLog(a: seq<Record>, b: seq<Record>)
    requires UniqueIds(a) && multiset(a) == multiset(b)
    ensures Sort(a, LogLe) == Sort(b, LogLe)
  {
    LogLeTotal();
    SortSorts(a, LogLe);
    SortSorts(b, LogLe);
    SortPermutes(a, LogLe);
    SortPermutes(b, LogLe);
    SortMembers(a, LogLe);
    forall x, y | x in Sort(a, LogLe) && y in Sort(a, LogLe) && LogLe(x, y) && LogLe(y, x) ensures x == y {
      LexAntisymmetric(x.id, y.id);
      var i :| 0 <= i < |a| && a[i] == x;
      var k :| 0 <= k < |a| && a[k] == y;
    }
    SortedIsUnique(Sort(a, LogLe), Sort(b, LogLe), LogLe);
  }

  lemma GroupsAreDetermined(s: seq<Record>, current: string, a: seq<Group>, b: seq<Group>)
    requires Grouped(s, current, a) && Grouped(s, current, b)
    ensures a == b
  {
  }

  /** Two windows over the same rows, in whatever order they arrive, are the same transcript. */
  lemma WindowIgnoresInputOrder(a: seq<Record>, b: seq<Record>, w: Window, x: seq<Record>, y: seq<Record>)
    requires UniqueIds(a) && multiset(a) == multiset(b) && IsTranscript(a, w, x) && IsTranscript(b, w, y)
    ensures x == y
  {
    SameLog(a, b);
    var runs: seq<Group>, first: nat :| Ordered(a, w, runs) && LongestSuffix(runs, w.limit, first) && x == Flatten(runs[first..]);
    var runs': seq<Group>, first': nat :| Ordered(b, w, runs') && LongestSuffix(runs', w.limit, first') && y == Flatten(runs'[first'..]);
    var g: seq<Group> :| Grouped(Sort(a, LogLe), w.current, g) && runs == Sort(Visible(g, w.through), RunLe);
    var g': seq<Group> :| Grouped(Sort(b, LogLe), w.current, g') && runs' == Sort(Visible(g', w.through), RunLe);
    GroupsAreDetermined(Sort(a, LogLe), w.current, g, g');
    SuffixIsUnique(runs, w.limit, first, first');
  }

  // ---------------------------------------------------------------- runs are whole

  /** A visible run: its key, exactly its rows, and the earliest user row as the cutoff sees it. */
  ghost predicate RunOf(records: seq<Record>, w: Window, g: Group) {
    && (forall r :: r in g.messages <==> r in records && KeyOf(r) == g.key)
    && g.userAt == UserAt(RowsOf(Sort(records, LogLe), g.key))
    && (g.current <==> w.current != "" && exists r :: r in g.messages && r.id == w.current)
    && Shown(g.userAt, w.through) && g.messages != []
  }

  lemma {:induction false} VisibleMembers(groups: seq<Group>, through: Option<int>)
    ensures forall g :: g in Visible(groups, through) ==>
      exists i :: 0 <= i < |groups| && Shown(groups[i].userAt, through) && g == groups[i].(messages := Sort(groups[i].messages, SpeechLe))
    ensures forall i :: 0 <= i < |groups| && Shown(groups[i].userAt, through) ==>
      groups[i].(messages := Sort(groups[i].messages, SpeechLe)) in Visible(groups, through)
    decreases |groups|
  {
    if groups != [] {
      var n := |groups| - 1;
      VisibleMembers(groups[..n], through);
      forall g | g in Visible(groups, through)
        ensures exists i :: 0 <= i < |groups| && Shown(groups[i].userAt, through) && g == groups[i].(messages := Sort(groups[i].messages, SpeechLe))
      {
        if g in Visible(groups[..n], through) {
          var i :| 0 <= i < n && Shown(groups[..n][i].userAt, through) && g == groups[..n][i].(messages := Sort(groups[..n][i].messages, SpeechLe));
          assert groups[i] == groups[..n][i];
        } else {
          assert g == groups[n].(messages := Sort(groups[n].messages, SpeechLe));
        }
      }
      forall i | 0 <= i < |groups| && Shown(groups[i].userAt, through)
        ensures groups[i].(messages := Sort(groups[i].messages, SpeechLe)) in Visible(groups, through)
      {
        if i < n { assert groups[..n][i] == groups[i]; }
      }
    }
  }

  lemma SummaryIsRun(records: seq<Record>, w: Window, key: string)
    requires RowsOf(Sort(records, LogLe), key) != []
    requires Shown(UserAt(RowsOf(Sort(records, LogLe), key)), w.through)
    ensures var g := Summary(key, RowsOf(Sort(records, LogLe), key), w.current); RunOf(records, w, g.(messages := Sort(g.messages, SpeechLe)))
  {
    var rows := RowsOf(Sort(records, LogLe), key);
    SortMembers(records, LogLe);
    FilterMembers(Sort(records, LogLe), (r: Record) => KeyOf(r) == key);
    SortMembers(rows, SpeechLe);
    if HasCurrent(rows, w.current) {
      var i :| 0 <= i < |rows| && rows[i].id == w.current;
      assert rows[i] in Sort(rows, SpeechLe);
    }
  }

  /** Every ordered run is a visible run of the log, with all of its rows. */
  lemma OrderedRuns(records: seq<Record>, w: Window, runs: seq<Group>, g: Group)
    requires Ordered(records, w, runs) && g in runs
    ensures RunOf(records, w, g)
  {
    var groups: seq<Group> :| Grouped(Sort(records, LogLe), w.current, groups) && runs == Sort(Visible(groups, w.through), RunLe);
    SortMembers(Visible(groups, w.through), RunLe);
    VisibleMembers(groups, w.through);
    var i :| 0 <= i < |groups| && Shown(groups[i].userAt, w.through) && g == groups[i].(messages := Sort(groups[i].messages, SpeechLe));
    SummaryIsRun(records, w, Keys(Sort(records, LogLe))[i]);
  }

  lemma {:induction false} FlattenMembers(groups: seq<Group>, r: Record)
    ensures r in Flatten(groups) <==> exists i :: 0 <= i < |groups| && r in groups[i].messages
    decreases |groups|
  {
    if groups != [] {
      var n := |groups| - 1;
      FlattenMembers(groups[..n], r);
      if r in Flatten(groups[..n]) {
        var i :| 0 <= i < n && r in groups[..n][i].messages;
        assert r in groups[i].messages;
      }
      if exists i :: 0 <= i < |groups| && r in groups[i].messages {
        var i :| 0 <= i < |groups| && r in groups[i].messages;
        if i < n { assert r in groups[..n][i].messages; }
      }
    }
  }

  /** A run appears whole or not at all. */
  lemma RunsAreWhole(records: seq<Record>, w: Window, out: seq<Record>, r: Record, other: Record)
    requires IsTranscript(records, w, out) && r in out && other in records && KeyOf(other) == KeyOf(r)
    ensures other in out
  {
    var runs: seq<Group>, first: nat :| Ordered(records, w, runs) && LongestSuffix(runs, w.limit, first) && out == Flatten(runs[first..]);
    FlattenMembers(runs[first..], r);
    FlattenMembers(runs[first..], other);
    var i :| 0 <= i < |runs[first..]| && r in runs[first..][i].messages;
    assert runs[first..][i] in runs;
    OrderedRuns(records, w, runs, runs[first..][i]);
  }

  // ---------------------------------------------------------------- the cutoff

  lemma RunIsOrdered(records: seq<Record>, w: Window, runs: seq<Group>, r: Record)
    requires Ordered(records, w, runs) && r in records && Shown(UserAt(RowsOf(Sort(records, LogLe), KeyOf(r))), w.through)
    ensures exists i :: 0 <= i < |runs| && runs[i].key == KeyOf(r) && r in runs[i].messages
  {
    var groups: seq<Group> :| Grouped(Sort(records, LogLe), w.current, groups) && runs == Sort(Visible(groups, w.through), RunLe);
    var log := Sort(records, LogLe);
    SortMembers(records, LogLe);
    KeysKnow(log);
    var k :| 0 <= k < |log| && log[k] == r;
    var i :| 0 <= i < |Keys(log)| && Keys(log)[i] == KeyOf(r);
    VisibleMembers(groups, w.through);
    var g := groups[i].(messages := Sort(groups[i].messages, SpeechLe));
    SummaryIsRun(records, w, Keys(log)[i]);
    SortMembers(Visible(groups, w.through), RunLe);
    assert g in runs;
  }

  /** The row's run is shown by the cutoff but lies before the suffix that the limit keeps. */
  ghost predicate CutByLimit(records: seq<Record>, w: Window, r: Record) {
    exists runs: seq<Group>, first: nat, i: nat ::
      Ordered(records, w, runs) && LongestSuffix(runs, w.limit, first) && i < first && runs[i].key == KeyOf(r)
  }

  lemma RunsAreDetermined(records: seq<Record>, w: Window, a: seq<Group>, b: seq<Group>)
    requires Ordered(records, w, a) && Ordered(records, w, b)
    ensures a == b
  {
    var g: seq<Group> :| Grouped(Sort(records, LogLe), w.current, g) && a == Sort(Visible(g, w.through), RunLe);
    var g': seq<Group> :| Grouped(Sort(records, LogLe), w.current, g') && b == Sort(Visible(g', w.through), RunLe);
    GroupsAreDetermined(Sort(records, LogLe), w.current, g, g');
  }

  /** A row of a kept run is in the transcript, and a row of the transcript is of a kept run. */
  lemma InWindowIffKept(records: seq<Record>, w: Window, runs: seq<Group>, first: nat, r: Record)
    requires Ordered(records, w, runs) && first <= |runs| && r in records
    ensures r in Flatten(runs[first..]) <==> exists i :: first <= i < |runs| && runs[i].key == KeyOf(r)
  {
    FlattenMembers(runs[first..], r);
    if r in Flatten(runs[first..]) {
      var i :| 0 <= i < |runs[first..]| && r in runs[first..][i].messages;
      assert runs[first + i] == runs[first..][i] && runs[first + i] in runs;
      OrderedRuns(records, w, runs, runs[first + i]);
    }
    if exists i :: first <= i < |runs| && runs[i].key == KeyOf(r) {
      var i :| first <= i < |runs| && runs[i].key == KeyOf(r);
      OrderedRuns(records, w, runs, runs[i]);
      assert r in runs[first..][i - first].messages;
    }
  }

  /** In any window a row is missing exactly when the earliest user row of its run lies past the cutoff, or the limit removed its run. */
  lemma HiddenExactlyByCutoff(records: seq<Record>, w: Window, out: seq<Record>, r: Record)
    requires IsTranscript(records, w, out) && r in records
    ensures var shown := Shown(UserAt(RowsOf(Sort(records, LogLe), KeyOf(r))), w.through);
            && (r in out <==> shown && !CutByLimit(records, w, r))
            && (CutByLimit(records, w, r) ==> shown && w.limit > 0)
  {
    var runs: seq<Group>, first: nat :| Ordered(records, w, runs) && LongestSuffix(runs, w.limit, first) && out == Flatten(runs[first..]);
    InWindowIffKept(records, w, runs, first, r);
    if exists i :: 0 <= i < |runs| && runs[i].key == KeyOf(r) {
      var i :| 0 <= i < |runs| && runs[i].key == KeyOf(r);
      OrderedRuns(records, w, runs, runs[i]);
    }
    if Shown(UserAt(RowsOf(Sort(records, LogLe), KeyOf(r))), w.through) { RunIsOrdered(records, w, runs, r); }
    if CutByLimit(records, w, r) { CutIsBelow(records, w, runs, first, r); }
  }

  /** A run that the limit removed is not among the kept ones. */
  lemma CutIsBelow(records: seq<Record>, w: Window, runs: seq<Group>, first: nat, r: Record)
    requires Ordered(records, w, runs) && LongestSuffix(runs, w.limit, first) && CutByLimit(records, w, r)
    ensures w.limit > 0 && (exists i :: 0 <= i < first && runs[i].key == KeyOf(r))
    ensures forall i :: first <= i < |runs| ==> runs[i].key != KeyOf(r)
  {
    var runs': seq<Group>, first': nat, i: nat :|
      Ordered(records, w, runs') && LongestSuffix(runs', w.limit, first') && i < first' && runs'[i].key == KeyOf(r);
    RunsAreDetermined(records, w, runs, runs');
    SuffixIsUnique(runs, w.limit, first, first');
    forall k | first <= k < |runs| ensures runs[k].key != KeyOf(r) { OneRunPerKey(records, w, runs, i, k); }
  }

  /** `UserAt` is the earliest user row. */
  lemma {:induction false} UserAtIsEarliest(s: seq<Record>)
    ensures UserAt(s).None? <==> forall i :: 0 <= i < |s| ==> !s[i].user
    ensures UserAt(s).Some? ==> (exists i :: 0 <= i < |s| && s[i].user && s[i].number == UserAt(s).value)
    ensures UserAt(s).Some? ==> forall i :: 0 <= i < |s| && s[i].user ==> UserAt(s).value <= s[i].number
    decreases |s|
  {
    if s != [] {
      var n := |s| - 1;
      UserAtIsEarliest(s[..n]);
      assert forall i :: 0 <= i < n ==> s[..n][i] == s[i];
    }
  }

  // ---------------------------------------------------------------- the current run

  lemma CurrentGroupIsLast(records: seq<Record>, w: Window, runs: seq<Group>, i: nat)
    requires Ordered(records, w, runs) && UniqueIds(records) && i < |runs| && runs[i].current
    ensures i == |runs| - 1
  {
    var groups: seq<Group> :| Grouped(Sort(records, LogLe), w.current, groups) && runs == Sort(Visible(groups, w.through), RunLe);
    RunLeTotal();
    SortSorts(Visible(groups, w.through), RunLe);
    var last := |runs| - 1;
    if i < last {
      assert RunLe(runs[i], runs[last]);
      OrderedRuns(records, w, runs, runs[i]);
      OrderedRuns(records, w, runs, runs[last]);
      SharedRow(records, w, runs[i], runs[last]);
      OneRunPerKey(records, w, runs, i, last);
    }
  }

  lemma FlattenEnds(groups: seq<Group>)
    requires groups != [] && groups[|groups| - 1].messages != []
    ensures Flatten(groups) != [] && Flatten(groups)[|Flatten(groups)| - 1] in groups[|groups| - 1].messages
  {
    var last := groups[|groups| - 1].messages;
    assert Flatten(groups)[|Flatten(groups)| - 1] == last[|last| - 1];
  }

  /** If the cutoff shows the run of the current message, no limit removes it, and it ends the transcript. */
  lemma CurrentRunIsLast(records: seq<Record>, w: Window, out: seq<Record>, r: Record)
    requires IsTranscript(records, w, out) && UniqueIds(records) && r in records && r.id == w.current && w.current != ""
    requires Shown(UserAt(RowsOf(Sort(records, LogLe), KeyOf(r))), w.through)
    ensures r in out && KeyOf(out[|out| - 1]) == KeyOf(r)
  {
    var runs: seq<Group>, first: nat :| Ordered(records, w, runs) && LongestSuffix(runs, w.limit, first) && out == Flatten(runs[first..]);
    RunIsOrdered(records, w, runs, r);
    var i :| 0 <= i < |runs| && runs[i].key == KeyOf(r) && r in runs[i].messages;
    CurrentIsMarked(records, w, runs, i, r);
    CurrentGroupIsLast(records, w, runs, i);
    LastRunEnds(records, w, runs, first, r);
  }

  lemma CurrentIsMarked(records: seq<Record>, w: Window, runs: seq<Group>, i: nat, r: Record)
    requires Ordered(records, w, runs) && i < |runs| && r in runs[i].messages && r.id == w.current && w.current != ""
    ensures runs[i].current
  {
    OrderedRuns(records, w, runs, runs[i]);
  }

  lemma LastRunEnds(records: seq<Record>, w: Window, runs: seq<Group>, first: nat, r: Record)
    requires Ordered(records, w, runs) && first < |runs| && r in records && runs[|runs| - 1].key == KeyOf(r)
    ensures var out := Flatten(runs[first..]); r in out && KeyOf(out[|out| - 1]) == KeyOf(r)
  {
    InWindowIffKept(records, w, runs, first, r);
    OrderedRuns(records, w, runs, runs[|runs| - 1]);
    assert runs[first..][|runs| - first - 1] == runs[|runs| - 1];
    FlattenEnds(runs[first..]);
  }

  lemma SharedRow(records: seq<Record>, w: Window, a: Group, b: Group)
    requires UniqueIds(records) && RunOf(records, w, a) && RunOf(records, w, b) && a.current && b.current
    ensures a.key == b.key
  {
    var x :| x in a.messages && x.id == w.current;
    var y :| y in b.messages && y.id == w.current;
    var i :| 0 <= i < |records| && records[i] == x;
    var k :| 0 <= k < |records| && records[k] == y;
  }

  ghost predicate DistinctKeys(groups: seq<Group>) { forall i, k :: 0 <= i < k < |groups| ==> groups[i].key != groups[k].key }

  lemma {:induction false} VisibleKeys(groups: seq<Group>, through: Option<int>)
    requires DistinctKeys(groups)
    ensures DistinctKeys(Visible(groups, through))
    decreases |groups|
  {
    if groups != [] {
      var n := |groups| - 1;
      VisibleKeys(groups[..n], through);
      VisibleMembers(groups[..n], through);
      forall g | g in Visible(groups[..n], through) ensures g.key != groups[n].key {
        var i :| 0 <= i < n && Shown(groups[..n][i].userAt, through) && g == groups[..n][i].(messages := Sort(groups[..n][i].messages, SpeechLe));
        assert groups[i].key != groups[n].key;
      }
    }
  }

  lemma OneRunPerKey(records: seq<Record>, w: Window, runs: seq<Group>, i: nat, k: nat)
    requires Ordered(records, w, runs) && i < k < |runs|
    ensures runs[i].key != runs[k].key
  {
    var groups: seq<Group> :| Grouped(Sort(records, LogLe), w.current, groups) && runs == Sort(Visible(groups, w.through), RunLe);
    KeysKnow(Sort(records, LogLe));
    VisibleKeys(groups, w.through);
    SortPermutes(Visible(groups, w.through), RunLe);
    PermutedKeys(Visible(groups, w.through), runs);
  }

  lemma PermutedKeys(a: seq<Group>, b: seq<Group>)
    requires DistinctKeys(a) && multiset(a) == multiset(b)
    ensures DistinctKeys(b)
  {
    SameMembers(a, b);
    forall i, k | 0 <= i < k < |b| ensures b[i].key != b[k].key {
      assert b[i] in a && b[k] in a;
      var x :| 0 <= x < |a| && a[x] == b[i];
      var y :| 0 <= y < |a| && a[y] == b[k];
      if b[i].key == b[k].key {
        assert x == y && b[i] == b[k];
        TwiceIsTwo(b, i, k);
        OnceIsOne(a, x);
      }
    }
  }

  lemma TwiceIsTwo<T>(s: seq<T>, i: nat, k: nat)
    requires i < k < |s| && s[i] == s[k]
    ensures multiset(s)[s[i]] >= 2
  {
    assert s == s[..i] + [s[i]] + s[i + 1..k] + [s[k]] + s[k + 1..];
  }

  lemma OnceIsOne(s: seq<Group>, i: nat)
    requires DistinctKeys(s) && i < |s|
    ensures multiset(s)[s[i]] == 1
  {
    assert s == s[..i] + [s[i]] + s[i + 1..];
    assert s[i] !in s[..i] && s[i] !in s[i + 1..];
  }
}
