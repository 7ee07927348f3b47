/**
 The one-closer repair of malformed JSON: a stack scanner over the brackets and strings of sections 2 and 7 of RFC 8259
 that may drop a single `}` standing where an array is open, and only if nothing but closers and white space follows.
 */
module CloserRepair {
  import opened Basics

  datatype Scan = Scan(stack: seq<char>, inString: bool, escaped: bool)

  const START := Scan([], false, false)

  predicate IsWhitespace(c: char) { c == ' ' || c == '\t' || c == '\n' || c == '\r' }

  predicate IsCloser(c: char) { c == '}' || c == ']' }

  predicate DelimitersMatch(open: char, close: char) { (open == '{' && close == '}') || (open == '[' && close == ']') }

  /** One character of a bracket-correct text; none if it closes what is not open. */
  function Step(s: Scan, c: char): Option<Scan> {
    if s.inString then
      if s.escaped then Some(s.(escaped := false))
      else if c == '\\' then Some(s.(escaped := true))
      else if c == '"' then Some(s.(inString := false))
      else Some(s)
    else if c == '"' then Some(s.(inString := true))
    else if c == '{' || c == '[' then Some(s.(stack := s.stack + [c]))
    else if IsCloser(c) then
      if s.stack == [] || !DelimitersMatch(s.stack[|s.stack| - 1], c) then None else Some(s.(stack := s.stack[..|s.stack| - 1]))
    else Some(s)
  }

  /** The scanner after the whole text. */
  function ScanText(text: string): Option<Scan> {
    if text == "" then Some(START)
    else
      var before := ScanText(text[..|text| - 1]);
      if before.None? then None else Step(before.value, text[|text| - 1])
  }

  /** Every bracket outside strings is matched and every string is closed. */
  predicate Balanced(text: string) { ScanText(text) == Some(START) }

  function Without(text: string, i: nat): string
    requires i < |text|
  {
    text[..i] + text[i + 1..]
  }

  /** Position `i` holds the one closer the repair may drop. */
  ghost predicate Removable(text: string, i: nat) {
    && i < |text| && text[i] == '}'
    && (var s := ScanText(text[..i]); s.Some? && !s.value.inString && s.value.stack != [] && s.value.stack[|s.value.stack| - 1] == '[')
    && (forall k :: i < k < |text| ==> IsCloser(text[k]) || IsWhitespace(text[k]))
    && Balanced(Without(text, i))
  }

  // ---------------------------------------------------------------- scanning

  lemma {:induction false} ScanPrefix(text: string, i: nat)
    requires i <= |text| && ScanText(text).Some?
    ensures ScanText(text[..i]).Some?
    decreases |text|
  {
    if i == |text| {
      assert text[..i] == text;
    } else {
      assert text[..|text| - 1][..i] == text[..i];
      ScanPrefix(text[..|text| - 1], i);
    }
  }

  lemma ScanExtend(text: string, i: nat)
    requires i < |text|
    ensures ScanText(text[..i + 1]) == if ScanText(text[..i]).None? then None else Step(ScanText(text[..i]).value, text[i])
  {
    assert text[..i + 1][..i] == text[..i];
  }

  /** A text that fails at some prefix fails as a whole. */
  lemma StuckStays(text: string, i: nat)
    requires i <= |text| && ScanText(text[..i]).None?
    ensures ScanText(text).None?
  {
    if ScanText(text).Some? { ScanPrefix(text, i); }
  }

  /** At a removable closer the unrepaired text is stuck, so no balanced text has one. */
  lemma RemovableIsUnbalanced(text: string, i: nat)
    requires Removable(text, i)
    ensures ScanText(text).None?
  {
    ScanExtend(text, i);
    StuckStays(text, i + 1);
  }

  /** The removable closer is unique: it is where the scanner gets stuck first. */
  lemma RemovableIsUnique(text: string, i: nat, k: nat)
    requires Removable(text, i) && Removable(text, k)
    ensures i == k
  {
    if i < k { StuckAt(text, i); StuckBefore(text, i, k); }
    else if k < i { StuckAt(text, k); StuckBefore(text, k, i); }
  }

  lemma StuckAt(text: string, i: nat)
    requires Removable(text, i)
    ensures ScanText(text[..i + 1]).None?
  {
    ScanExtend(text, i);
  }

  lemma StuckBefore(text: string, i: nat, k: nat)
    requires i < k <= |text| && ScanText(text[..i + 1]).None?
    ensures ScanText(text[..k]).None?
  {
    assert text[..k][..i + 1] == text[..i + 1];
    StuckStays(text[..k], i + 1);
  }

  // ---------------------------------------------------------------- the repair

  /** `repairSingleMismatchedJSONCloser` */
  method Repair(text: string) returns (result: Option<string>)
    ensures result.Some? <==> exists i: nat :: Removable(text, i)
    ensures result.Some? ==> exists i: nat :: Removable(text, i) && result.value == Without(text, i)
  {
    var stack: seq<char>, repaired: string := [], "";
    var inString, escaped, repairedCloser := false, false, false;
    ghost var at := 0;
    for index := 0 to |text|
      invariant Copied(text, index, repaired, repairedCloser, at)
      invariant ScanText(repaired) == Some(Scan(stack, inString, escaped))
      invariant repairedCloser ==> !inString
    {
      var c := text[index];
      CopyNext(text, index, repaired, repairedCloser, at);
      if inString {
        repaired := repaired + [c];
        if escaped { escaped := false; }
        else if c == '\\' { escaped := true; }
        else if c == '"' { inString := false; }
        continue;
      }
      if repairedCloser && !IsWhitespace(c) && c != '}' && c != ']' {
        NothingElseFits(text, at, index);
        return None;
      }
      if c == '"' {
        inString := true;
        repaired := repaired + [c];
      } else if c == '{' || c == '[' {
        stack := stack + [c];
        repaired := repaired + [c];
      } else if c == '}' || c == ']' {
        if stack == [] || !DelimitersMatch(stack[|stack| - 1], c) {
          if repairedCloser || stack == [] || stack[|stack| - 1] != '[' || c != '}' {
            if repairedCloser { SecondMismatch(text, at, index); } else { HopelessMismatch(text, index); }
            return None;
          }
          repairedCloser := true;
          DropNext(text, index, repaired);
          at := index;
          continue;
        }
        stack := stack[..|stack| - 1];
        repaired := repaired + [c];
      } else {
        repaired := repaired + [c];
      }
    }
    CopyEnds(text, repaired, repairedCloser, at);
    if inString || escaped || stack != [] || !repairedCloser {
      if repairedCloser { OnlyThere(text, at); } else { NothingToRepair(text); }
      return None;
    }
    assert Removable(text, at);
    return Some(repaired);
  }

  /** The scanner dropped the closer at `at` and has read on to `index` through closers and white space. */
  ghost predicate RepairedAt(text: string, at: nat, index: nat) {
    && at < index <= |text| && text[at] == '}'
    && (var s := ScanText(text[..at]); s.Some? && !s.value.inString && s.value.stack != [] && s.value.stack[|s.value.stack| - 1] == '[')
    && (forall k :: at < k < index ==> IsCloser(text[k]) || IsWhitespace(text[k]))
  }

  /** What has been copied of the first `index` characters: all of them, or all but the dropped closer. */
  ghost predicate Copied(text: string, index: nat, repaired: string, dropped: bool, at: nat) {
    && index <= |text|
    && if dropped then RepairedAt(text, at, index) && repaired == text[..at] + text[at + 1..index] else repaired == text[..index]
  }

  /** Copying one more character; the scanner takes the step of that character. */
  lemma CopyNext(text: string, index: nat, repaired: string, dropped: bool, at: nat)
    requires index < |text| && Copied(text, index, repaired, dropped, at)
    ensures !dropped || IsCloser(text[index]) || IsWhitespace(text[index]) ==> Copied(text, index + 1, repaired + [text[index]], dropped, at)
    ensures repaired + [text[index]] == if dropped then text[..at] + text[at + 1..index + 1] else text[..index + 1]
    ensures ScanText(repaired).Some? ==> ScanText(repaired + [text[index]]) == Step(ScanText(repaired).value, text[index])
  {
    assert (repaired + [text[index]])[..|repaired|] == repaired;
  }

  /** Dropping the closer instead. */
  lemma DropNext(text: string, index: nat, repaired: string)
    requires index < |text| && Copied(text, index, repaired, false, index) && text[index] == '}'
    requires var s := ScanText(repaired); s.Some? && !s.value.inString && s.value.stack != [] && s.value.stack[|s.value.stack| - 1] == '['
    ensures Copied(text, index + 1, repaired, true, index)
  {
    assert text[..index] + text[index + 1..index + 1] == text[..index];
  }

  lemma CopyEnds(text: string, repaired: string, dropped: bool, at: nat)
    requires Copied(text, |text|, repaired, dropped, at)
    ensures if dropped then RepairedAt(text, at, |text|) && repaired == Without(text, at) else repaired == text
  {
  }

  lemma StuckAtRepair(text: string, at: nat, index: nat)
    requires RepairedAt(text, at, index)
    ensures ScanText(text[..at + 1]).None?
  {
    ScanExtend(text, at);
  }

  /** Any removable closer would have to be the one already dropped. */
  lemma MustBeThere(text: string, at: nat, index: nat, i: nat)
    requires RepairedAt(text, at, index) && Removable(text, i)
    ensures i == at
  {
    StuckAtRepair(text, at, index);
    if at < i { StuckBefore(text, at, i); }
    if i < at { StuckAt(text, i); StuckBefore(text, i, at); }
  }

  lemma NothingElseFits(text: string, at: nat, index: nat)
    requires RepairedAt(text, at, index) && index < |text| && !IsWhitespace(text[index]) && !IsCloser(text[index])
    ensures !exists i: nat :: Removable(text, i)
  {
    forall i: nat | Removable(text, i) ensures false { MustBeThere(text, at, index, i); }
  }

  lemma OnlyThere(text: string, at: nat)
    requires RepairedAt(text, at, |text|) && !Balanced(Without(text, at))
    ensures !exists i: nat :: Removable(text, i)
  {
    forall i: nat | Removable(text, i) ensures false { MustBeThere(text, at, |text|, i); }
  }

  lemma NothingToRepair(text: string)
    requires ScanText(text).Some?
    ensures !exists i: nat :: Removable(text, i)
  {
    forall i: nat | Removable(text, i) ensures false { RemovableIsUnbalanced(text, i); }
  }

  lemma HopelessMismatch(text: string, index: nat)
    requires index < |text| && ScanText(text[..index]).Some? && ScanText(text[..index + 1]).None?
    requires var s := ScanText(text[..index]).value; s.stack == [] || s.stack[|s.stack| - 1] != '[' || text[index] != '}'
    ensures !exists i: nat :: Removable(text, i)
  {
    forall i: nat | Removable(text, i) ensures false { MismatchMisses(text, index, i); }
  }

  lemma MismatchMisses(text: string, index: nat, i: nat)
    requires index < |text| && ScanText(text[..index]).Some? && ScanText(text[..index + 1]).None? && Removable(text, i)
    ensures i == index
  {
    if i < index { StuckAt(text, i); StuckBefore(text, i, index); }
    if i > index { StuckBefore(text, index, i); }
  }

  lemma SecondMismatch(text: string, at: nat, index: nat)
    requires RepairedAt(text, at, index) && index < |text|
    requires var kept := text[..at] + text[at + 1..index + 1]; ScanText(kept).None?
    ensures !exists i: nat :: Removable(text, i)
  {
    forall i: nat | Removable(text, i) ensures false {
      MustBeThere(text, at, index, i);
      var kept := text[..at] + text[at + 1..index + 1];
      assert Without(text, at)[..|kept|] == kept;
      StuckStays(Without(text, at), |kept|);
    }
  }

  // ---------------------------------------------------------------- what the repair means

  /** Balanced text is refused, so a repaired text can never be repaired again. */
  lemma BalancedIsRefused(text: string)
    requires Balanced(text)
    ensures !exists i: nat :: Removable(text, i)
  {
    NothingToRepair(text);
  }

  lemma RepairedIsFinal(text: string, i: nat)
    requires Removable(text, i)
    ensures Balanced(Without(text, i)) && !exists k: nat :: Removable(Without(text, i), k)
  {
    BalancedIsRefused(Without(text, i));
  }
}
