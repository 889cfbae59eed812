/** Vocabulary shared by the three controllers: identifiers, the outcome of a
    request handler, and the list operations the handlers build on
    (`Array.prototype.filter` and membership tests over lists of ids). */
module Common {

  /** MongoDB ObjectIds, compared by their hexadecimal string form. The empty
      string stands for a request field the client left out (a falsy value). */
  type UserId = string
  type PostId = string
  type CommentId = string

  datatype Option<T> = None | Some(value: T)

  /** The statuses the handlers answer with: a `CustomError` carries 400,
      401 or 403; anything else that reaches `next` becomes 500. */
  datatype Status = BadRequest | Unauthorized | Forbidden | ServerError

  datatype Error = Error(status: Status, message: string)

  /** An exception thrown while the handler runs (a property read on a
      missing document, a failed schema validation, a non-error value passed
      to `next`). The error handler answers 500 with the exception's own
      message, which the model does not reproduce. */
  const Fault := Error(ServerError, "")

  datatype Result<T> = Ok(value: T) | Err(error: Error)

  /** Number of occurrences of `x` in `s`. */
  function Count<T(==)>(s: seq<T>, x: T): (n: nat)
    ensures n <= |s|
    ensures n == 0 <==> x !in s
  {
    if s == [] then 0 else (if s[0] == x then 1 else 0) + Count(s[1..], x)
  }

  lemma {:induction false} CountAppend<T>(s: seq<T>, x: T, y: T)
    ensures Count(s + [x], y) == Count(s, y) + (if x == y then 1 else 0)
  {
    if s == [] {
      assert s + [x] == [x];
    } else {
      assert (s + [x])[1..] == s[1..] + [x];
      CountAppend(s[1..], x, y);
    }
  }

  /** `r` is obtained from `s` by deleting some elements, keeping the order
      of those that remain. */
  predicate IsSubsequence<T(==)>(r: seq<T>, s: seq<T>)
    decreases |s|
  {
    if r == [] then true
    else if s == [] then false
    else if r[0] == s[0] then IsSubsequence(r[1..], s[1..])
    else IsSubsequence(r, s[1..])
  }

  /** `s.filter(e => e != x)`: every occurrence of `x` is dropped, every other
      element keeps its multiplicity and its relative order. */
  function RemoveAll<T(==,!new)>(s: seq<T>, x: T): (r: seq<T>)
    ensures forall y :: y in r <==> y in s && y != x
    ensures forall y :: y != x ==> Count(r, y) == Count(s, y)
    ensures |r| == |s| - Count(s, x)
    ensures IsSubsequence(r, s)
    ensures x !in s ==> r == s
  {
    if s == [] then []
    else if s[0] == x then RemoveAll(s[1..], x)
    else [s[0]] + RemoveAll(s[1..], x)
  }

  lemma {:induction false} RemoveAllAppended<T(!new)>(s: seq<T>, x: T)
    ensures RemoveAll(s + [x], x) == RemoveAll(s, x)
  {
    if s == [] {
      assert s + [x] == [x];
      assert [x][1..] == [];
    } else {
      assert (s + [x])[0] == s[0];
      assert (s + [x])[1..] == s[1..] + [x];
      RemoveAllAppended(s[1..], x);
    }
  }
}
