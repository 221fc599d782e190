/** The loop both decoders share: split the text into lines, then feed the lines one by one
    to a step that either gives the next parser state or throws. The first line that throws
    ends the loop. */
module LineFold {
  import opened Results

  /** The line (0-based) at which the loop stopped and what that line threw. */
  datatype Failure = Failure(index: nat, cause: Cause)

  /** The exception both decoders rethrow: the 1-based line number, the line as it was in the
      text, and the original cause. */
  datatype DecodeError = DecodeError(line: nat, content: string, cause: Cause)

  /** The loop over `lines` from `st`, for any step. */
  function Fold<S>(step: (S, string) -> Parsed<S>, st: S, lines: seq<string>): (r: Result<S, Failure>)
    ensures r.Err? ==> r.error.index < |lines|
  {
    if lines == [] then Ok(st)
    else
      var prev :- Fold(step, st, lines[..|lines| - 1]);
      match step(prev, lines[|lines| - 1])
      case Ok(next) => Ok(next)
      case Err(cause) => Err(Failure(|lines| - 1, cause))
  }

  /** Appending a line: the loop goes on from the state so far, or stays failed. */
  lemma FoldSnoc<S>(step: (S, string) -> Parsed<S>, st: S, lines: seq<string>, line: string)
    ensures var r := Fold(step, st, lines);
      Fold(step, st, lines + [line]) ==
        if r.Err? then Err(r.error)
        else
          var next := step(r.value, line);
          if next.Ok? then Ok(next.value) else Err(Failure(|lines|, next.error))
  {
    assert (lines + [line])[..|lines|] == lines;
  }

  /** One more line of the same text, in the form the decoding loop uses. */
  lemma FoldNext<S>(step: (S, string) -> Parsed<S>, st: S, lines: seq<string>, i: nat)
    requires i < |lines| && Fold(step, st, lines[..i]).Ok?
    ensures var next := step(Fold(step, st, lines[..i]).value, lines[i]);
      Fold(step, st, lines[..i + 1]) == if next.Ok? then Ok(next.value) else Err(Failure(i, next.error))
  {
    assert lines[..i + 1] == lines[..i] + [lines[i]];
    FoldSnoc(step, st, lines[..i], lines[i]);
  }

  /** Once a line throws, the lines after it change nothing: the whole loop fails there. */
  lemma {:induction false} FoldStopsAtFailure<S>(step: (S, string) -> Parsed<S>, st: S, lines: seq<string>, k: nat)
    requires k <= |lines| && Fold(step, st, lines[..k]).Err?
    ensures Fold(step, st, lines) == Fold(step, st, lines[..k])
    decreases |lines| - k
  {
    if k == |lines| {
      assert lines[..k] == lines;
    } else {
      var front := lines[..|lines| - 1];
      assert front[..k] == lines[..k];
      FoldStopsAtFailure(step, st, front, k);
      assert lines == front + [lines[|lines| - 1]];
      FoldSnoc(step, st, front, lines[|lines| - 1]);
    }
  }

  /** Reading `a` and then `b` is reading `a + b`; a failure in `b` is reported `|a|` lines
      further on. */
  lemma {:induction false} FoldConcat<S>(step: (S, string) -> Parsed<S>, st: S, a: seq<string>, b: seq<string>)
    requires Fold(step, st, a).Ok?
    ensures var r := Fold(step, Fold(step, st, a).value, b);
      Fold(step, st, a + b) == if r.Ok? then Ok(r.value) else Err(Failure(|a| + r.error.index, r.error.cause))
    decreases |b|
  {
    if b == [] {
      assert a + b == a;
    } else {
      var front := b[..|b| - 1];
      var last := b[|b| - 1];
      var mid := Fold(step, st, a).value;
      FoldConcat(step, st, a, front);
      assert a + b == (a + front) + [last];
      assert b == front + [last];
      FoldSnoc(step, st, a + front, last);
      FoldSnoc(step, mid, front, last);
      assert |a + front| == |a| + |front|;
    }
  }

  /** A failed loop stopped at its first failing line: every line before it was read, and
      that line threw the cause. */
  lemma {:induction false} FoldFailureIsFirst<S>(step: (S, string) -> Parsed<S>, st: S, lines: seq<string>)
    requires Fold(step, st, lines).Err?
    ensures var f := Fold(step, st, lines).error;
      && f.index < |lines|
      && Fold(step, st, lines[..f.index]).Ok?
      && step(Fold(step, st, lines[..f.index]).value, lines[f.index]) == Err(f.cause)
    decreases |lines|
  {
    var front := lines[..|lines| - 1];
    var last := lines[|lines| - 1];
    assert lines == front + [last];
    FoldSnoc(step, st, front, last);
    if Fold(step, st, front).Err? {
      FoldFailureIsFirst(step, st, front);
      var i := Fold(step, st, front).error.index;
      assert front[..i] == lines[..i] && front[i] == lines[i];
    } else {
      assert lines[..|lines| - 1] == front;
    }
  }

  /** The loop reads `lines` from `st` without an error and ends in `st'`. */
  ghost predicate Reads<S>(step: (S, string) -> Parsed<S>, st: S, lines: seq<string>, st': S) {
    Fold(step, st, lines) == Ok(st')
  }

  lemma ReadsOne<S>(step: (S, string) -> Parsed<S>, st: S, line: string, st': S)
    requires step(st, line) == Ok(st')
    ensures Reads(step, st, [line], st')
  {
    FoldSnoc(step, st, [], line);
    assert [] + [line] == [line];
  }

  lemma ReadsThen<S>(step: (S, string) -> Parsed<S>, s1: S, a: seq<string>, s2: S, b: seq<string>, s3: S)
    requires Reads(step, s1, a, s2) && Reads(step, s2, b, s3)
    ensures Reads(step, s1, a + b, s3)
  {
    FoldConcat(step, s1, a, b);
  }
}
