/** Failure-carrying wrappers shared by every front end of the repository. */
module Common {

  datatype Option<+T> = None | Some(value: T)

  /** The outcome of an operation that either produces a value or stops with an error. */
  datatype Result<+T, +E> = Ok(value: T) | Err(error: E)

  /** The character at `i`, or `None` past the end: the `current_char` of every cursor lexer. */
  function CharAt(s: string, i: nat): (r: Option<char>)
    ensures r.Some? <==> i < |s|
    ensures r.Some? ==> r.value == s[i]
  {
    if i < |s| then Some(s[i]) else None
  }

  /** Prepends already produced tokens to the outcome of the rest of the scan. */
  function Prefix<T, E>(ts: seq<T>, r: Result<seq<T>, E>): Result<seq<T>, E>
  {
    match r
    case Ok(v) => Ok(ts + v)
    case Err(x) => Err(x)
  }

  lemma PrefixNil<T, E>(r: Result<seq<T>, E>)
    ensures Prefix([], r) == r
  {
    if r.Ok? {
      assert [] + r.value == r.value;
    }
  }

  lemma PrefixPrefix<T, E>(ts: seq<T>, us: seq<T>, r: Result<seq<T>, E>)
    ensures Prefix(ts, Prefix(us, r)) == Prefix(ts + us, r)
  {
    if r.Ok? {
      assert ts + (us + r.value) == (ts + us) + r.value;
    }
  }

  /** A parser's token queue: `current_token` and the list that `tokens.pop(0)` takes from. */
  datatype Stream<T> = Stream(current: Option<T>, rest: seq<T>)

  /** The number of tokens not yet consumed, the current one included. */
  function Size<T>(st: Stream<T>): nat
  {
    (if st.current.Some? then 1 else 0) + |st.rest|
  }

  /** `tokens.pop(0) if tokens else None`. */
  function Pop<T>(rest: seq<T>): (st: Stream<T>)
    ensures Size(st) == |rest|
  {
    if rest == [] then Stream(None, []) else Stream(Some(rest[0]), rest[1..])
  }

  lemma PopCons<T>(t: T, rest: seq<T>)
    ensures Pop([t] + rest) == Stream(Some(t), rest)
  {
    assert ([t] + rest)[1..] == rest;
  }

  /** A list of three items in front of `rest`, taken apart one item at a time. */
  lemma Cons3<T>(a: T, b: T, c: T, rest: seq<T>)
    ensures [a, b, c] + rest == [a] + ([b] + ([c] + rest))
  {
    assert [a, b, c] == [a] + [b] + [c];
  }

  /** A list of four items in front of `rest`, taken apart one item at a time. */
  lemma Cons4<T>(a: T, b: T, c: T, d: T, rest: seq<T>)
    ensures [a, b, c, d] + rest == [a] + ([b] + ([c] + ([d] + rest)))
  {
    assert [a, b, c, d] == [a] + [b] + [c] + [d];
  }
}
