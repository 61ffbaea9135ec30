/**
 * The uniform output of both extractors: browser-tagged records, the diagnostics
 * printed along the way, and the uncaught exceptions that end a scan.
 */
module Records {
  import opened Base
  import opened Json

  datatype Browser = Chrome | Firefox

  /** One row of the result. The three text fields hold whatever JSON value the descriptor had. */
  datatype Record = Record(browser: Browser, name: Value, version: Value, description: Value)

  /** The defaults used for an absent `name` or `version`, and for an absent `description`. */
  const Unknown: Value := Str("Unknown")
  const NoDescription: Value := Str("No description")

  /** The messages printed by the scan; none of them stops it. */
  datatype Diagnostic =
    | ChromePathNotFound
    | ManifestUnreadable(profile: string, extension: string, version: string)
    | ExtensionsJsonUnreadable

  /** The unguarded `iterdir` calls whose exception escapes the extractor. */
  datatype Fault =
    | ChromeBaseNotDirectory
    | ExtensionsNotDirectory(profile: string)
    | ExtensionNotDirectory(profile: string, extension: string)
    | FirefoxBaseMissing
    | FirefoxBaseNotDirectory

  /** What a finished scan has produced: the appended records and the printed diagnostics, in order. */
  datatype Scan = Scan(records: seq<Record>, log: seq<Diagnostic>) {
    /** This scan followed by `next`. */
    function Then(next: Scan): Scan {
      Scan(records + next.records, log + next.log)
    }
  }

  const Empty: Scan := Scan([], [])

  /** Every record carries tag `b`. */
  predicate Tagged(records: seq<Record>, b: Browser) {
    forall i :: 0 <= i < |records| ==> records[i].browser == b
  }

  lemma ThenAssociative(a: Scan, b: Scan, c: Scan)
    ensures a.Then(b).Then(c) == a.Then(b.Then(c))
  {
    assert (a.records + b.records) + c.records == a.records + (b.records + c.records);
    assert (a.log + b.log) + c.log == a.log + (b.log + c.log);
  }

  lemma ThenEmpty(a: Scan)
    ensures a.Then(Empty) == a && Empty.Then(a) == a
  {
    assert a.records + [] == a.records && [] + a.records == a.records;
    assert a.log + [] == a.log && [] + a.log == a.log;
  }

  /** A loop over `xs` whose body contributes `f(x)` and never raises. */
  function Concat<T>(f: T -> Scan, xs: seq<T>): Scan
  {
    if |xs| == 0 then Empty else f(xs[0]).Then(Concat(f, xs[1..]))
  }

  lemma {:induction false} ConcatAppend<T>(f: T -> Scan, xs: seq<T>, ys: seq<T>)
    ensures Concat(f, xs + ys) == Concat(f, xs).Then(Concat(f, ys))
  {
    if |xs| == 0 {
      assert xs + ys == ys;
      ThenEmpty(Concat(f, ys));
    } else {
      assert (xs + ys)[0] == xs[0];
      assert (xs + ys)[1..] == xs[1..] + ys;
      ConcatAppend(f, xs[1..], ys);
      ThenAssociative(f(xs[0]), Concat(f, xs[1..]), Concat(f, ys));
    }
  }

  lemma ConcatSingle<T>(f: T -> Scan, x: T)
    ensures Concat(f, [x]) == f(x)
  {
    assert [x][1..] == [];
    ThenEmpty(f(x));
  }

  lemma {:induction false} ConcatTagged<T>(f: T -> Scan, xs: seq<T>, b: Browser)
    requires forall x :: x in xs ==> Tagged(f(x).records, b)
    ensures Tagged(Concat(f, xs).records, b)
  {
    if |xs| > 0 {
      assert forall x :: x in xs[1..] ==> x in xs;
      ConcatTagged(f, xs[1..], b);
      assert Tagged(f(xs[0]).records, b);
    }
  }

  /** A property every diagnostic of every pass has holds of every diagnostic of the loop. */
  lemma {:induction false} ConcatLogs<T>(f: T -> Scan, xs: seq<T>, p: Diagnostic -> bool)
    requires forall x :: x in xs ==> forall d :: d in f(x).log ==> p(d)
    ensures forall d :: d in Concat(f, xs).log ==> p(d)
  {
    if |xs| > 0 {
      assert forall x :: x in xs[1..] ==> x in xs;
      ConcatLogs(f, xs[1..], p);
      assert xs[0] in xs;
    }
  }

  /** A loop whose every pass prints at most one diagnostic prints at most one per element. */
  lemma {:induction false} ConcatLogBound<T>(f: T -> Scan, xs: seq<T>)
    requires forall x :: x in xs ==> |f(x).log| <= 1
    ensures |Concat(f, xs).log| <= |xs|
  {
    if |xs| > 0 {
      assert forall x :: x in xs[1..] ==> x in xs;
      ConcatLogBound(f, xs[1..]);
      assert xs[0] in xs;
    }
  }

  /**
   * A loop over `xs` whose body contributes `f(x)` or raises: the first raising
   * element ends the whole loop and its exception is the result.
   */
  function ConcatOrFail<T>(f: T -> Result<Scan, Fault>, xs: seq<T>): (r: Result<Scan, Fault>)
    ensures r.Success? <==> forall i :: 0 <= i < |xs| ==> f(xs[i]).Success?
    ensures r.Failure? ==> exists i :: && 0 <= i < |xs| && f(xs[i]) == Failure(r.error)
                                       && forall j :: 0 <= j < i ==> f(xs[j]).Success?
  {
    if |xs| == 0 then Success(Empty)
    else
      assert forall i :: 1 <= i < |xs| ==> xs[i] == xs[1..][i - 1];
      match f(xs[0])
      case Failure(e) => Failure(e)
      case Success(s) =>
        match ConcatOrFail(f, xs[1..])
        case Failure(e) => Failure(e)
        case Success(t) => Success(s.Then(t))
  }

  lemma {:induction false} ConcatOrFailAppend<T>(f: T -> Result<Scan, Fault>, xs: seq<T>, ys: seq<T>)
    ensures ConcatOrFail(f, xs + ys) ==
      match ConcatOrFail(f, xs)
      case Failure(e) => Failure(e)
      case Success(s) =>
        match ConcatOrFail(f, ys)
        case Failure(e) => Failure(e)
        case Success(t) => Success(s.Then(t))
  {
    if |xs| == 0 {
      assert xs + ys == ys;
      if ConcatOrFail(f, ys).Success? {
        ThenEmpty(ConcatOrFail(f, ys).value);
      }
    } else {
      assert (xs + ys)[0] == xs[0];
      assert (xs + ys)[1..] == xs[1..] + ys;
      ConcatOrFailAppend(f, xs[1..], ys);
      if f(xs[0]).Success? && ConcatOrFail(f, xs[1..]).Success? && ConcatOrFail(f, ys).Success? {
        ThenAssociative(f(xs[0]).value, ConcatOrFail(f, xs[1..]).value, ConcatOrFail(f, ys).value);
      }
    }
  }

  lemma ConcatOrFailSingle<T>(f: T -> Result<Scan, Fault>, x: T)
    ensures ConcatOrFail(f, [x]) == f(x)
  {
    assert [x][1..] == [];
    if f(x).Success? {
      ThenEmpty(f(x).value);
    }
  }

  lemma {:induction false} ConcatOrFailTagged<T>(f: T -> Result<Scan, Fault>, xs: seq<T>, b: Browser)
    requires forall x :: x in xs && f(x).Success? ==> Tagged(f(x).value.records, b)
    ensures ConcatOrFail(f, xs).Success? ==> Tagged(ConcatOrFail(f, xs).value.records, b)
  {
    if |xs| > 0 {
      assert forall x :: x in xs[1..] ==> x in xs;
      ConcatOrFailTagged(f, xs[1..], b);
      if f(xs[0]).Success? {
        assert Tagged(f(xs[0]).value.records, b);
      }
    }
  }

  /** Extending the loop over `xs[..k]` by one element. */
  lemma ConcatSnoc<T>(f: T -> Scan, xs: seq<T>, k: nat)
    requires k < |xs|
    ensures Concat(f, xs[..k + 1]) == Concat(f, xs[..k]).Then(f(xs[k]))
  {
    assert xs[..k + 1] == xs[..k] + [xs[k]];
    ConcatAppend(f, xs[..k], [xs[k]]);
    ConcatSingle(f, xs[k]);
  }

  /** Extending the raising loop over `xs[..k]` by one element. */
  lemma ConcatOrFailSnoc<T>(f: T -> Result<Scan, Fault>, xs: seq<T>, k: nat)
    requires k < |xs|
    requires ConcatOrFail(f, xs[..k]).Success? && f(xs[k]).Success?
    ensures ConcatOrFail(f, xs[..k + 1]) == Success(ConcatOrFail(f, xs[..k]).value.Then(f(xs[k]).value))
  {
    assert xs[..k + 1] == xs[..k] + [xs[k]];
    ConcatOrFailAppend(f, xs[..k], [xs[k]]);
    ConcatOrFailSingle(f, xs[k]);
  }

  /** The first element that raises ends the loop with its exception. */
  lemma ConcatOrFailStopsAt<T>(f: T -> Result<Scan, Fault>, xs: seq<T>, k: nat)
    requires k < |xs|
    requires ConcatOrFail(f, xs[..k]).Success? && f(xs[k]).Failure?
    ensures ConcatOrFail(f, xs) == Failure(f(xs[k]).error)
  {
    assert forall j :: 0 <= j < k ==> xs[..k][j] == xs[j];
  }

  /**
   * A loop over `xs` that appends `f(x)` per element until the first element for
   * which `f` raises (`None`): what was appended before that element is kept and
   * the rest of `xs` is not visited.
   */
  function AppendWhileSome<T, R>(f: T -> Option<R>, xs: seq<T>): (r: seq<R>)
    ensures |r| <= |xs|
    ensures forall i :: 0 <= i < |r| ==> f(xs[i]) == Some(r[i])
    ensures |r| < |xs| ==> f(xs[|r|]).None?
  {
    if |xs| == 0 then []
    else
      match f(xs[0])
      case None => []
      case Some(y) =>
        var rest := AppendWhileSome(f, xs[1..]);
        var r := [y] + rest;
        assert forall i :: 1 <= i < |xs| ==> xs[i] == xs[1..][i - 1];
        assert forall i :: 1 <= i < |r| ==> r[i] == rest[i - 1];
        r
  }

  /** The loop stops exactly at the first element that raises. */
  lemma AppendWhileSomeStopsAt<T, R>(f: T -> Option<R>, xs: seq<T>, k: nat)
    requires k <= |xs|
    requires forall i :: 0 <= i < k ==> f(xs[i]).Some?
    requires k == |xs| || f(xs[k]).None?
    ensures |AppendWhileSome(f, xs)| == k
  {
  }

  /** The same loop written with a `break`, appending to `acc0` in place. */
  method CollectWhileSome<T, R>(f: T -> Option<R>, xs: seq<T>, acc0: seq<R>) returns (acc: seq<R>, failed: bool)
    ensures acc == acc0 + AppendWhileSome(f, xs)
    ensures failed <==> |AppendWhileSome(f, xs)| < |xs|
  {
    var added: seq<R> := [];
    failed := false;
    var k := 0;
    while k < |xs|
      invariant k <= |xs|
      invariant |added| == k
      invariant forall i :: 0 <= i < k ==> f(xs[i]) == Some(added[i])
    {
      var y := f(xs[k]);
      if y.None? {
        failed := true;
        break;
      }
      ghost var before := added;
      added := added + [y.value];
      assert forall i :: 0 <= i < k ==> added[i] == before[i];
      k := k + 1;
    }
    AppendWhileSomeStopsAt(f, xs, k);
    var expected := AppendWhileSome(f, xs);
    forall i | 0 <= i < k
      ensures added[i] == expected[i]
    {
      assert f(xs[i]) == Some(expected[i]);
    }
    assert added == expected;
    acc := acc0 + added;
  }

  /** How many elements of `xs` satisfy `p`. */
  function Count<T>(p: T -> bool, xs: seq<T>): (n: nat)
    ensures n <= |xs|
  {
    if |xs| == 0 then 0 else (if p(xs[0]) then 1 else 0) + Count(p, xs[1..])
  }

  lemma {:induction false} CountMonotone<T>(p: T -> bool, q: T -> bool, xs: seq<T>)
    requires forall x :: x in xs && p(x) ==> q(x)
    ensures Count(p, xs) <= Count(q, xs)
  {
    if |xs| > 0 {
      assert forall x :: x in xs[1..] ==> x in xs;
      CountMonotone(p, q, xs[1..]);
    }
  }
}
