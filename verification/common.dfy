/**
 * Values shared by both backend adapters: optional values, the failures an
 * operation can end in, the shape of a backend response, and two sequence
 * combinators (filtering and a sequential fallible map) with their laws.
 */
module Common {

  datatype Option<+T> = None | Some(value: T) {
    /** The value, or `default` when absent (C#'s `??`). */
    function GetOr(default: T): T {
      match this
      case Some(v) => v
      case None => default
    }
  }

  /** An instant as the backends report it; no arithmetic is done on it. */
  datatype DateTime = DateTime(ticks: int)

  /** The failures that end an operation (each is an exception in the source). */
  datatype Error =
    | HttpRequestError(status: int)     // EnsureSuccessStatusCode / GetStringAsync on a non-success status
    | InvalidOperation(message: string) // thrown by the adapters themselves, or by Single()
    | FormatError(text: string)         // int.Parse of a string that is not a number
    | QueryFailed(message: string)      // an exception from the analytics query client, rethrown

  datatype Result<+T> = Success(value: T) | Failure(error: Error)

  /** What a GET against the build backend yields once the body is deserialised. */
  datatype Response<+T> = Ok(body: T) | NonSuccess(status: int) | NullBody

  /**
   * EnsureSuccessStatusCode followed by `Deserialize(...) ?? throw`: a
   * non-success status and an unreadable body are distinct failures.
   */
  function ReadBody<T>(response: Response<T>, what: string): (r: Result<T>)
    ensures r.Success? <==> response.Ok?
    ensures response.Ok? ==> r.value == response.body
    ensures response.NonSuccess? ==> r == Failure(HttpRequestError(response.status))
    ensures response.NullBody? ==> r.Failure? && r.error.InvalidOperation?
  {
    match response
    case Ok(body) => Success(body)
    case NonSuccess(status) => Failure(HttpRequestError(status))
    case NullBody => Failure(InvalidOperation("Failed to deserialize " + what + " response"))
  }

  /** LINQ `Where`: the elements satisfying `p`, in input order. */
  function Filter<T>(s: seq<T>, p: T -> bool): (r: seq<T>)
    ensures |r| <= |s|
  {
    if s == [] then [] else Filter(s[..|s| - 1], p) + (if p(s[|s| - 1]) then [s[|s| - 1]] else [])
  }

  lemma FilterSnoc<T>(s: seq<T>, x: T, p: T -> bool)
    ensures Filter(s + [x], p) == Filter(s, p) + if p(x) then [x] else []
  {
    assert (s + [x])[..|s|] == s;
  }

  lemma FilterSingleton<T>(x: T, p: T -> bool)
    ensures Filter([x], p) == if p(x) then [x] else []
  {
    assert [x][..0] == [];
  }

  /** The filter keeps exactly the elements satisfying `p`. */
  lemma {:induction false} FilterMembers<T>(s: seq<T>, p: T -> bool)
    ensures forall i :: 0 <= i < |Filter(s, p)| ==> Filter(s, p)[i] in s && p(Filter(s, p)[i])
    ensures forall i :: 0 <= i < |s| && p(s[i]) ==> s[i] in Filter(s, p)
  {
    if s != [] {
      FilterMembers(s[..|s| - 1], p);
      assert s == s[..|s| - 1] + [s[|s| - 1]];
    }
  }

  lemma {:induction false} FilterAppend<T>(a: seq<T>, b: seq<T>, p: T -> bool)
    ensures Filter(a + b, p) == Filter(a, p) + Filter(b, p)
    decreases |b|
  {
    if b == [] {
      assert a + b == a;
    } else {
      assert (a + b)[..|a + b| - 1] == a + b[..|b| - 1];
      FilterAppend(a, b[..|b| - 1], p);
    }
  }

  lemma {:induction false} FilterMultiset<T>(s: seq<T>, p: T -> bool)
    ensures multiset(Filter(s, p)) <= multiset(s)
  {
    if s != [] {
      FilterMultiset(s[..|s| - 1], p);
      assert s == s[..|s| - 1] + [s[|s| - 1]];
    }
  }

  /** A filter whose predicate holds everywhere keeps the whole sequence. */
  lemma {:induction false} FilterAll<T>(s: seq<T>, p: T -> bool)
    requires forall i :: 0 <= i < |s| ==> p(s[i])
    ensures Filter(s, p) == s
  {
    if s != [] {
      FilterAll(s[..|s| - 1], p);
    }
  }

  /**
   * A `foreach` that stops at the first exception: apply `f` to every
   * element in order; the first failure is the failure of the whole.
   */
  function Traverse<A, B>(s: seq<A>, f: A -> Result<B>): (r: Result<seq<B>>)
    ensures r.Success? ==> |r.value| == |s|
  {
    if s == [] then Success([])
    else
      match Traverse(s[..|s| - 1], f)
      case Failure(e) => Failure(e)
      case Success(vs) =>
        match f(s[|s| - 1])
        case Failure(e) => Failure(e)
        case Success(v) => Success(vs + [v])
  }

  /** The traversal succeeds exactly when every element succeeds, and then holds every element's value in order. */
  lemma {:induction false} TraverseSuccess<A, B>(s: seq<A>, f: A -> Result<B>)
    ensures Traverse(s, f).Success? <==> forall i :: 0 <= i < |s| ==> f(s[i]).Success?
    ensures Traverse(s, f).Success? ==> forall i :: 0 <= i < |s| ==> Traverse(s, f).value[i] == f(s[i]).value
  {
    if s != [] {
      TraverseSuccess(s[..|s| - 1], f);
    }
  }

  /** A failed traversal fails with the error of the first failing element. */
  lemma {:induction false} TraverseFailure<A, B>(s: seq<A>, f: A -> Result<B>)
    requires Traverse(s, f).Failure?
    ensures exists k :: 0 <= k < |s| && f(s[k]).Failure? && Traverse(s, f).error == f(s[k]).error
                        && forall j :: 0 <= j < k ==> f(s[j]).Success?
  {
    var init := s[..|s| - 1];
    if Traverse(init, f).Failure? {
      TraverseFailure(init, f);
      var k :| 0 <= k < |init| && f(init[k]).Failure? && Traverse(init, f).error == f(init[k]).error
               && forall j :: 0 <= j < k ==> f(init[j]).Success?;
      assert s[k] == init[k];
      assert forall j :: 0 <= j < k ==> s[j] == init[j];
    } else {
      TraverseSuccess(init, f);
      var k := |s| - 1;
      assert forall j :: 0 <= j < k ==> s[j] == init[j];
    }
  }

  /** Once a prefix has failed, the elements after it make no difference. */
  lemma {:induction false} TraverseFailureSticks<A, B>(s: seq<A>, t: seq<A>, f: A -> Result<B>)
    requires Traverse(s, f).Failure?
    ensures Traverse(s + t, f) == Traverse(s, f)
    decreases |t|
  {
    if t != [] {
      assert (s + t)[..|s + t| - 1] == s + t[..|t| - 1];
      TraverseFailureSticks(s, t[..|t| - 1], f);
    } else {
      assert s + t == s;
    }
  }

  /** A traversal whose prefix succeeded fails at the first failing element after it, with that element's error. */
  lemma TraverseFailsAt<A, B>(s: seq<A>, i: int, f: A -> Result<B>)
    requires 0 <= i < |s| && Traverse(s[..i], f).Success? && f(s[i]).Failure?
    ensures Traverse(s, f) == Failure(f(s[i]).error)
  {
    assert s[..i + 1][..i] == s[..i];
    TraverseFailureSticks(s[..i + 1], s[i + 1..], f);
    assert s[..i + 1] + s[i + 1..] == s;
  }

  /** One more successful element extends the successful result by one value. */
  lemma TraverseSnoc<A, B>(s: seq<A>, x: A, f: A -> Result<B>)
    requires Traverse(s, f).Success?
    ensures Traverse(s + [x], f) ==
              match f(x)
              case Failure(e) => Failure(e)
              case Success(v) => Success(Traverse(s, f).value + [v])
  {
    assert (s + [x])[..|s + [x]| - 1] == s;
  }

  /** `SelectMany` / nested `Add`: the lists one after another. */
  function Flatten<T>(ss: seq<seq<T>>): seq<T> {
    if ss == [] then [] else Flatten(ss[..|ss| - 1]) + ss[|ss| - 1]
  }

  lemma FlattenSnoc<T>(ss: seq<seq<T>>, s: seq<T>)
    ensures Flatten(ss + [s]) == Flatten(ss) + s
  {
    assert (ss + [s])[..|ss|] == ss;
  }

  /** A traversal whose results are flattened grows, one successful element at a time, by that element's list. */
  lemma TraverseFlattenStep<A, T>(s: seq<A>, i: int, f: A -> Result<seq<T>>)
    requires 0 <= i < |s| && Traverse(s[..i], f).Success? && f(s[i]).Success?
    ensures Traverse(s[..i + 1], f).Success?
    ensures Flatten(Traverse(s[..i + 1], f).value) == Flatten(Traverse(s[..i], f).value) + f(s[i]).value
  {
    assert s[..i + 1] == s[..i] + [s[i]];
    TraverseSnoc(s[..i], s[i], f);
    FlattenSnoc(Traverse(s[..i], f).value, f(s[i]).value);
  }

  lemma {:induction false} FlattenAppend<T>(a: seq<seq<T>>, b: seq<seq<T>>)
    ensures Flatten(a + b) == Flatten(a) + Flatten(b)
    decreases |b|
  {
    if b == [] {
      assert a + b == a;
    } else {
      var init, last := b[..|b| - 1], b[|b| - 1];
      assert a + b == (a + init) + [last];
      FlattenSnoc(a + init, last);
      FlattenSnoc(init, last);
      assert init + [last] == b;
      FlattenAppend(a, init);
    }
  }

  /** Every element of the flattened list comes from one of the lists. */
  lemma {:induction false} FlattenMembers<T>(ss: seq<seq<T>>, j: int)
    requires 0 <= j < |Flatten(ss)|
    ensures exists i :: 0 <= i < |ss| && Flatten(ss)[j] in ss[i]
  {
    var init, last := ss[..|ss| - 1], ss[|ss| - 1];
    assert Flatten(ss) == Flatten(init) + last;
    if j < |Flatten(init)| {
      FlattenMembers(init, j);
      var i :| 0 <= i < |init| && Flatten(init)[j] in init[i];
      assert ss[i] == init[i];
    } else {
      assert Flatten(ss)[j] == last[j - |Flatten(init)|];
      assert Flatten(ss)[j] in ss[|ss| - 1];
    }
  }

  /** The prefix of a successful traversal is the traversal of the prefix. */
  lemma {:induction false} TraverseAppend<A, B>(s: seq<A>, t: seq<A>, f: A -> Result<B>)
    requires Traverse(s, f).Success? && Traverse(t, f).Success?
    ensures Traverse(s + t, f) == Success(Traverse(s, f).value + Traverse(t, f).value)
    decreases |t|
  {
    if t == [] {
      assert s + t == s;
      assert Traverse(s, f).value + Traverse(t, f).value == Traverse(s, f).value;
    } else {
      var init := t[..|t| - 1];
      assert (s + t)[..|s + t| - 1] == s + init;
      assert (s + t)[|s + t| - 1] == t[|t| - 1];
      assert Traverse(init, f).Success?;
      TraverseAppend(s, init, f);
      var v := f(t[|t| - 1]).value;
      assert Traverse(t, f).value == Traverse(init, f).value + [v];
      assert Traverse(s + t, f).value == Traverse(s + init, f).value + [v];
      assert Traverse(s, f).value + Traverse(init, f).value + [v] == Traverse(s, f).value + (Traverse(init, f).value + [v]);
    }
  }
}
