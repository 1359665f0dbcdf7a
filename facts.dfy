/** What the scan state holds after the first `n` characters, stated in terms
    of the scalar itself (the Reference predicates restricted to a prefix). */
module ScanFacts {
  import opened Chars
  import opened Scan
  import opened Reference

  /** The multiline flag records whether a line break has been seen. */
  lemma {:induction false} LineBreaksSeen(s: string, e: bool, n: nat)
    requires 0 < |s| && n <= |s|
    ensures ScanTo(s, e, n).lineBreaks <==> exists i :: 0 <= i < n && IsLineBreak(s[i])
    decreases n
  {
    if n > 0 {
      LineBreaksSeen(s, e, n - 1);
    }
  }

  /** The special-characters flag records whether a special character has been
      seen, and only when non-ASCII output is refused. */
  lemma {:induction false} SpecialSeen(s: string, e: bool, n: nat)
    requires 0 < |s| && n <= |s|
    ensures ScanTo(s, e, n).specialCharacters <==> e && exists i :: 0 <= i < n && IsSpecial(s[i])
    decreases n
  {
    if n > 0 {
      SpecialSeen(s, e, n - 1);
    }
  }

  /** The escape flag feeds nothing but the special-characters flag. */
  lemma {:induction false} EscapeOnlyTouchesSpecial(s: string, n: nat)
    requires 0 < |s| && n <= |s|
    ensures ScanTo(s, true, n).(specialCharacters := false) == ScanTo(s, false, n)
    decreases n
  {
    if n > 0 {
      EscapeOnlyTouchesSpecial(s, n - 1);
    }
  }

  /** At every index the two neighbour flags describe the adjacent characters. */
  lemma Neighbours(s: string, e: bool, n: nat)
    requires 0 < |s| && n <= |s|
    ensures n < |s| ==> ScanTo(s, e, n).precededBySpace == PrecededBySpaceAt(s, n)
    ensures ScanTo(s, e, n).followedBySpace == FollowedBySpaceAt(s, n)
  {
  }

  /** The indicator flags record whether the scalar is a document marker or
      some character so far is an indicator in its context. */
  lemma {:induction false} IndicatorsSeen(s: string, e: bool, n: nat)
    requires 0 < |s| && n <= |s|
    ensures ScanTo(s, e, n).flowIndicators <==>
      IsDocumentMarker(s) || exists i :: 0 <= i < n && FlowIndicatorAt(s, i)
    ensures ScanTo(s, e, n).blockIndicators <==>
      IsDocumentMarker(s) || exists i :: 0 <= i < n && BlockIndicatorAt(s, i)
    decreases n
  {
    if n > 0 {
      IndicatorsSeen(s, e, n - 1);
      Neighbours(s, e, n - 1);
      Neighbours(s, e, n);
      if FlowIndicatorAt(s, n - 1) {
        assert exists i :: 0 <= i < n && FlowIndicatorAt(s, i);
      }
      if BlockIndicatorAt(s, n - 1) {
        assert exists i :: 0 <= i < n && BlockIndicatorAt(s, i);
      }
    }
  }

  /** Where the run of spaces and line breaks that ends at `n` begins. */
  function RunStart(s: string, n: nat): (r: nat)
    requires n <= |s|
    ensures r <= n
    ensures forall k :: r <= k < n ==> IsRunChar(s[k])
    ensures r == 0 || !IsRunChar(s[r - 1])
    decreases n
  {
    if n == 0 || !IsRunChar(s[n - 1]) then n else RunStart(s, n - 1)
  }

  /** A block of run characters that cannot be extended to the left starts
      where RunStart says. */
  lemma {:induction false} RunStartOfBlock(s: string, i: nat, j: nat)
    requires i <= j <= |s|
    requires forall k :: i <= k < j ==> IsRunChar(s[k])
    requires i == 0 || !IsRunChar(s[i - 1])
    ensures RunStart(s, j) == i
    decreases j
  {
    if j > i {
      RunStartOfBlock(s, i, j - 1);
    }
  }

  /** The open-run flags after `n` characters: the run that ends at `n`, if
      there is one and the scalar goes on, described by its contents and by
      whether it starts the scalar; otherwise nothing is open. */
  predicate DescribesOpenRun(s: string, n: nat, run: Run)
    requires n <= |s|
  {
    var r := RunStart(s, n);
    if r < n && n < |s| then
      run == Run(HasSpace(s, r, n), HasBreak(s, r, n), SpaceBeforeBreak(s, r, n), r == 0)
    else
      run == NoRun
  }

  /** The whitespace flag that corresponds to `shape`. */
  function Flag(ws: Whitespace, shape: Shape): bool {
    match shape
    case LeadingSpaces => ws.leadingSpaces
    case LeadingBreaks => ws.leadingBreaks
    case TrailingSpaces => ws.trailingSpaces
    case TrailingBreaks => ws.trailingBreaks
    case InlineBreaks => ws.inlineBreaks
    case InlineBreaksSpaces => ws.inlineBreaksSpaces
    case MixedBreaksSpaces => ws.mixedBreaksSpaces
  }

  /** Some maximal run with `shape` has been committed within the first `n`
      steps: it ended before `n`, or it reaches the end and `n` is the end. */
  predicate Closed(s: string, shape: Shape, n: nat)
    requires n <= |s|
  {
    exists i, j :: 0 <= i < j <= |s| && IsRun(s, i, j) && (j < n || j == n == |s|)
      && RunHasShape(s, shape, i, j)
  }

  /** The run committed at step `n`, if any, has `shape`: a non-run character
      closes the run before it, and a run character at the end closes its own run. */
  predicate ClosedAt(s: string, shape: Shape, n: nat)
    requires n < |s|
  {
    if IsRunChar(s[n]) then n + 1 == |s| && RunHasShape(s, shape, RunStart(s, n + 1), n + 1)
    else RunStart(s, n) < n && RunHasShape(s, shape, RunStart(s, n), n)
  }

  /** Committing an open run raises exactly the flag of its inner shape. */
  lemma CommitRaises(ws: Whitespace, run: Run, shape: Shape)
    requires run.spaces || run.breaks
    requires run.mixed ==> run.spaces && run.breaks
    ensures Flag(Commit(ws, run), shape) ==
      (Flag(ws, shape) || Classifies(shape, run.spaces, run.breaks, run.mixed, run.leading, false))
  {
  }

  /** Committing a run at the end raises exactly the flag of its trailing shape. */
  lemma CommitTrailingRaises(ws: Whitespace, run: Run, shape: Shape)
    ensures Flag(CommitTrailing(ws, run), shape) ==
      (Flag(ws, shape) || Classifies(shape, run.spaces, run.breaks, run.mixed, run.leading, true))
  {
  }

  /** How the contents of a run grow by one character. */
  lemma GrowRun(s: string, r: nat, n: nat)
    requires r <= n < |s|
    ensures HasSpace(s, r, n + 1) == (HasSpace(s, r, n) || s[n] == ' ')
    ensures HasBreak(s, r, n + 1) == (HasBreak(s, r, n) || IsLineBreak(s[n]))
    ensures SpaceBeforeBreak(s, r, n + 1) == (SpaceBeforeBreak(s, r, n) || (HasSpace(s, r, n) && IsLineBreak(s[n])))
  {
    if SpaceBeforeBreak(s, r, n + 1) {
      var p, q :| r <= p < q < n + 1 && s[p] == ' ' && IsLineBreak(s[q]);
      if q < n {
        assert SpaceBeforeBreak(s, r, n);
      } else {
        assert HasSpace(s, r, n);
      }
    }
    if HasSpace(s, r, n) && IsLineBreak(s[n]) {
      var p :| r <= p < n && s[p] == ' ';
      assert SpaceBeforeBreak(s, r, n + 1);
    }
  }

  /** The open run of a scan is always consistent: mixed implies both kinds. */
  lemma MixedHasBoth(s: string, r: nat, n: nat)
    requires r <= n <= |s|
    ensures SpaceBeforeBreak(s, r, n) ==> HasSpace(s, r, n) && HasBreak(s, r, n)
  {
    if SpaceBeforeBreak(s, r, n) {
      var p, q :| r <= p < q < n && s[p] == ' ' && IsLineBreak(s[q]);
      assert s[p] == ' ';
      assert IsLineBreak(s[q]);
    }
  }

  /** One step keeps the open-run flags in line with the run ending at the new index. */
  lemma RunStepDescribes(s: string, n: nat, run: Run)
    requires n < |s|
    requires DescribesOpenRun(s, n, run)
    ensures DescribesOpenRun(s, n + 1, RunStep(run, s[n], n, n == |s| - 1))
  {
    GrowRun(s, RunStart(s, n), n);
  }

  /** On a run character the step only extends the open run, and commits it
      as trailing when the character is the last. */
  lemma RunCharFlag(ws: Whitespace, run: Run, c: char, n: nat, last: bool, shape: Shape)
    requires IsRunChar(c)
    ensures var run1 := Extend(run, c, n);
      Flag(WhitespaceStep(ws, run, c, n, last), shape) ==
      (Flag(ws, shape) || (last && Classifies(shape, run1.spaces, run1.breaks, run1.mixed, run1.leading, true)))
  {
    var run1 := Extend(run, c, n);
    assert WhitespaceAfter(ws, run, c) == ws;
    assert RunAfter(run, c, n) == run1;
    CommitTrailingRaises(ws, run1, shape);
  }

  /** On any other character the step commits the open run, if there is one. */
  lemma OtherCharFlag(ws: Whitespace, run: Run, c: char, n: nat, last: bool, shape: Shape)
    requires !IsRunChar(c)
    requires run.mixed ==> run.spaces && run.breaks
    requires !(run.spaces || run.breaks) ==> run == NoRun
    ensures Flag(WhitespaceStep(ws, run, c, n, last), shape) ==
      (Flag(ws, shape) || ((run.spaces || run.breaks) && Classifies(shape, run.spaces, run.breaks, run.mixed, run.leading, false)))
  {
    assert RunAfter(run, c, n) == NoRun;
    if run.spaces || run.breaks {
      assert WhitespaceAfter(ws, run, c) == Commit(ws, run);
      CommitRaises(ws, run, shape);
    } else {
      assert WhitespaceAfter(ws, run, c) == ws;
    }
  }

  /** On a run character, the run committed at step `n` is the extended open run
      reaching the end. */
  lemma RunCharClosedAt(s: string, n: nat, run: Run, shape: Shape)
    requires n < |s| && IsRunChar(s[n])
    requires DescribesOpenRun(s, n, run)
    ensures var run1 := Extend(run, s[n], n);
      ClosedAt(s, shape, n) ==
      (n == |s| - 1 && Classifies(shape, run1.spaces, run1.breaks, run1.mixed, run1.leading, true))
  {
    var r := RunStart(s, n);
    assert RunStart(s, n + 1) == r;
    GrowRun(s, r, n);
    if r == n {
      assert !HasSpace(s, r, n) && !HasBreak(s, r, n) && !SpaceBeforeBreak(s, r, n);
    }
    assert Extend(run, s[n], n) ==
      Run(HasSpace(s, r, n + 1), HasBreak(s, r, n + 1), SpaceBeforeBreak(s, r, n + 1), r == 0);
  }

  /** On any other character, the run committed at step `n` is the open run. */
  lemma OtherCharClosedAt(s: string, n: nat, run: Run, shape: Shape)
    requires n < |s| && !IsRunChar(s[n])
    requires DescribesOpenRun(s, n, run)
    ensures run.mixed ==> run.spaces && run.breaks
    ensures !(run.spaces || run.breaks) ==> run == NoRun
    ensures ClosedAt(s, shape, n) ==
      ((run.spaces || run.breaks) && Classifies(shape, run.spaces, run.breaks, run.mixed, run.leading, false))
  {
    var r := RunStart(s, n);
    if r < n {
      MixedHasBoth(s, r, n);
      assert IsRunChar(s[r]);
      assert HasSpace(s, r, n) || HasBreak(s, r, n);
    }
  }

  /** A run committed within `n + 1` steps but not within `n` is the one
      committed at step `n`. */
  lemma ClosedStepNew(s: string, shape: Shape, n: nat)
    requires n < |s|
    requires Closed(s, shape, n + 1) && !Closed(s, shape, n)
    ensures ClosedAt(s, shape, n)
  {
    var i, j :| 0 <= i < j <= |s| && IsRun(s, i, j) && (j < n + 1 || j == n + 1 == |s|)
      && RunHasShape(s, shape, i, j);
    RunStartOfBlock(s, i, j);
    if j == n {
      assert !IsRunChar(s[n]);
    } else {
      assert j == n + 1 == |s|;
      assert IsRunChar(s[n]);
    }
  }

  /** The run committed at step `n` counts as committed within `n + 1` steps. */
  lemma ClosedAtCounts(s: string, shape: Shape, n: nat)
    requires n < |s|
    requires ClosedAt(s, shape, n)
    ensures Closed(s, shape, n + 1)
  {
    if IsRunChar(s[n]) {
      var r := RunStart(s, n + 1);
      assert IsRun(s, r, n + 1);
    } else {
      var r := RunStart(s, n);
      assert IsRun(s, r, n);
    }
  }

  /** The runs committed within `n + 1` steps are those within `n` and the one
      committed at step `n`. */
  lemma ClosedStep(s: string, shape: Shape, n: nat)
    requires n < |s|
    ensures Closed(s, shape, n + 1) <==> Closed(s, shape, n) || ClosedAt(s, shape, n)
  {
    if Closed(s, shape, n + 1) && !Closed(s, shape, n) {
      ClosedStepNew(s, shape, n);
    }
    if ClosedAt(s, shape, n) {
      ClosedAtCounts(s, shape, n);
    }
  }

  /** A scan step on a run character raises a flag exactly when it commits a
      trailing run of that shape. */
  lemma RunCharStepRaises(s: string, e: bool, n: nat, shape: Shape)
    requires n < |s| && IsRunChar(s[n])
    requires DescribesOpenRun(s, n, ScanTo(s, e, n).run)
    ensures Flag(ScanTo(s, e, n + 1).ws, shape) == (Flag(ScanTo(s, e, n).ws, shape) || ClosedAt(s, shape, n))
  {
    var st := ScanTo(s, e, n);
    assert ScanTo(s, e, n + 1).ws == WhitespaceStep(st.ws, st.run, s[n], n, n == |s| - 1);
    RunCharFlag(st.ws, st.run, s[n], n, n == |s| - 1, shape);
    RunCharClosedAt(s, n, st.run, shape);
  }

  /** A scan step on any other character raises a flag exactly when it commits
      an open run of that shape. */
  lemma OtherCharStepRaises(s: string, e: bool, n: nat, shape: Shape)
    requires n < |s| && !IsRunChar(s[n])
    requires DescribesOpenRun(s, n, ScanTo(s, e, n).run)
    ensures Flag(ScanTo(s, e, n + 1).ws, shape) == (Flag(ScanTo(s, e, n).ws, shape) || ClosedAt(s, shape, n))
  {
    var st := ScanTo(s, e, n);
    assert ScanTo(s, e, n + 1).ws == WhitespaceStep(st.ws, st.run, s[n], n, n == |s| - 1);
    OtherCharClosedAt(s, n, st.run, shape);
    OtherCharFlag(st.ws, st.run, s[n], n, n == |s| - 1, shape);
  }

  /** One scan step keeps the open-run flags describing the run ending at the index. */
  lemma OpenRunStep(s: string, e: bool, n: nat)
    requires n < |s|
    requires DescribesOpenRun(s, n, ScanTo(s, e, n).run)
    ensures DescribesOpenRun(s, n + 1, ScanTo(s, e, n + 1).run)
  {
    var st := ScanTo(s, e, n);
    assert ScanTo(s, e, n + 1).run == RunStep(st.run, s[n], n, n == |s| - 1);
    RunStepDescribes(s, n, st.run);
  }

  /** One scan step keeps a whitespace flag equal to "a run of its shape was committed". */
  lemma FlagStep(s: string, e: bool, n: nat, shape: Shape)
    requires n < |s|
    requires DescribesOpenRun(s, n, ScanTo(s, e, n).run)
    requires Flag(ScanTo(s, e, n).ws, shape) <==> Closed(s, shape, n)
    ensures Flag(ScanTo(s, e, n + 1).ws, shape) <==> Closed(s, shape, n + 1)
  {
    if IsRunChar(s[n]) {
      RunCharStepRaises(s, e, n, shape);
    } else {
      OtherCharStepRaises(s, e, n, shape);
    }
    ClosedStep(s, shape, n);
  }

  /** Before the first character nothing is open and nothing is committed. */
  lemma WhitespaceAtStart(s: string, e: bool)
    requires 0 < |s|
    ensures DescribesOpenRun(s, 0, ScanTo(s, e, 0).run)
    ensures forall shape :: Flag(ScanTo(s, e, 0).ws, shape) <==> Closed(s, shape, 0)
  {
    assert ScanTo(s, e, 0).run == NoRun && ScanTo(s, e, 0).ws == NoWhitespace;
    assert RunStart(s, 0) == 0;
  }

  /** One scan step, from index `m` to index `n`, preserves both halves of
      the whitespace invariant. */
  lemma WhitespaceStepSeen(s: string, e: bool, m: nat, n: nat)
    requires n == m + 1 && n <= |s|
    requires DescribesOpenRun(s, m, ScanTo(s, e, m).run)
    requires forall shape :: Flag(ScanTo(s, e, m).ws, shape) <==> Closed(s, shape, m)
    ensures DescribesOpenRun(s, n, ScanTo(s, e, n).run)
    ensures forall shape :: Flag(ScanTo(s, e, n).ws, shape) <==> Closed(s, shape, n)
  {
    OpenRunStep(s, e, m);
    forall shape
      ensures Flag(ScanTo(s, e, n).ws, shape) <==> Closed(s, shape, n)
    {
      FlagStep(s, e, m, shape);
    }
  }

  /** After `n` characters the open-run flags describe the run ending at `n`
      and each whitespace flag records whether a committed run had its shape. */
  lemma {:induction false} WhitespaceSeen(s: string, e: bool, n: nat)
    requires 0 < |s| && n <= |s|
    ensures DescribesOpenRun(s, n, ScanTo(s, e, n).run)
    ensures forall shape :: Flag(ScanTo(s, e, n).ws, shape) <==> Closed(s, shape, n)
    decreases n
  {
    if n == 0 {
      WhitespaceAtStart(s, e);
    } else {
      WhitespaceSeen(s, e, n - 1);
      WhitespaceStepSeen(s, e, n - 1, n);
    }
  }
}
