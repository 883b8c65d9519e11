/** Shared vocabulary of the model: optional values, the error shapes the
    procedures throw, and JavaScript's truthiness and `||` on nullable
    strings. */
module Common {

  datatype Option<+T> = None | Some(value: T) {
    function GetOr(default: T): T {
      match this
      case Some(v) => v
      case None => default
    }
  }

  /** tRPC error codes; a plain `throw new Error(...)` reaches the client
      as INTERNAL_SERVER_ERROR. */
  datatype Code =
    | NotFound
    | Forbidden
    | Unauthorized
    | BadRequest
    | Conflict
    | PayloadTooLarge
    | PreconditionFailed
    | InternalServerError

  datatype Error = Error(code: Code, message: string)

  datatype Result<+T> = Ok(value: T) | Err(error: Error)

  /** `throw new Error(message)` */
  function Plain(message: string): Error {
    Error(InternalServerError, message)
  }

  /** The error a property read on `undefined` raises (a `find(...)!` that
      found nothing). */
  const TypeError: Error := Error(InternalServerError, "TypeError")

  /** What `Web3Token.verify` throws on a token it rejects; the library's
      own wording is not modelled. */
  const InvalidWeb3Token: Error := Plain("Invalid web3 token")

  /** JavaScript truthiness of a nullable string: null and "" are falsy. */
  predicate Truthy(s: Option<string>) {
    s.Some? && s.value != ""
  }

  /** A Bytes column (a Node `Buffer`): byte values. A non-null buffer is
      truthy whatever it holds. */
  type Buffer = seq<int>

  /** JavaScript `a || b` on nullable strings. */
  function Or(a: Option<string>, b: Option<string>): (r: Option<string>)
    ensures Truthy(r) <==> Truthy(a) || Truthy(b)
    ensures Truthy(a) ==> r == a
  {
    if Truthy(a) then a else b
  }

  function Sum(xs: seq<int>): int {
    if xs == [] then 0 else xs[0] + Sum(xs[1..])
  }

  lemma {:induction false} SumAppend(xs: seq<int>, ys: seq<int>)
    ensures Sum(xs + ys) == Sum(xs) + Sum(ys)
  {
    if xs == [] {
      assert xs + ys == ys;
    } else {
      assert (xs + ys)[1..] == xs[1..] + ys;
      SumAppend(xs[1..], ys);
    }
  }

  /** JavaScript `s.length`: UTF-16 code units, two for a character
      outside the Basic Multilingual Plane (a surrogate pair). */
  function Utf16Length(s: string): nat {
    if s == [] then 0 else (if s[0] > '\U{FFFF}' then 2 else 1) + Utf16Length(s[1..])
  }

  /** `.length` counts every character once or twice, and equals the
      number of characters exactly when none lies outside the Basic
      Multilingual Plane. */
  lemma {:induction false} Utf16LengthBounds(s: string)
    ensures |s| <= Utf16Length(s) <= 2 * |s|
    ensures Utf16Length(s) == |s| <==> forall i :: 0 <= i < |s| ==> s[i] <= '\U{FFFF}'
  {
    if s != [] {
      Utf16LengthBounds(s[1..]);
      assert forall i :: 1 <= i < |s| ==> s[i] == s[1..][i - 1];
    }
  }

  /** `f` applied to each element in turn, the results concatenated. */
  function FlatMap<A, B>(f: A -> seq<B>, xs: seq<A>): seq<B> {
    if xs == [] then [] else f(xs[0]) + FlatMap(f, xs[1..])
  }

  lemma {:induction false} FlatMapAppend<A, B>(f: A -> seq<B>, xs: seq<A>, ys: seq<A>)
    ensures FlatMap(f, xs + ys) == FlatMap(f, xs) + FlatMap(f, ys)
  {
    if xs == [] {
      assert xs + ys == ys;
    } else {
      assert (xs + ys)[1..] == xs[1..] + ys;
      FlatMapAppend(f, xs[1..], ys);
    }
  }

  predicate NoDuplicates<T(==)>(xs: seq<T>) {
    forall i, j :: 0 <= i < j < |xs| ==> xs[i] != xs[j]
  }

  /** The characters of the JavaScript `\s` class, which are also the
      white space `parseInt` skips. */
  predicate IsSpace(c: char) {
    c == ' ' || c == '\t' || c == '\n' || c == '\r' || c == '\U{0B}' || c == '\U{0C}'
    || c == '\U{A0}' || c == '\U{1680}' || ('\U{2000}' <= c <= '\U{200A}')
    || c == '\U{2028}' || c == '\U{2029}' || c == '\U{202F}' || c == '\U{205F}'
    || c == '\U{3000}' || c == '\U{FEFF}'
  }

  predicate NoSpace(s: string) {
    forall i :: 0 <= i < |s| ==> !IsSpace(s[i])
  }

  function DropSpaces(s: string): (r: string)
    ensures |r| <= |s| && r == s[|s| - |r|..]
    ensures r == [] || !IsSpace(r[0])
  {
    if s != [] && IsSpace(s[0]) then DropSpaces(s[1..]) else s
  }

  /** `[...new Set(xs)]`: the first occurrence of each element, in order. */
  function Distinct<T(==)>(xs: seq<T>): seq<T>
    decreases |xs|
  {
    if xs == [] then []
    else
      var d := Distinct(xs[..|xs| - 1]);
      if xs[|xs| - 1] in d then d else d + [xs[|xs| - 1]]
  }

  lemma {:induction false} DistinctSpec<T>(xs: seq<T>)
    ensures NoDuplicates(Distinct(xs))
    ensures forall x :: x in Distinct(xs) <==> x in xs
    ensures |Distinct(xs)| <= |xs|
    ensures |Distinct(xs)| == |xs| <==> NoDuplicates(xs)
    ensures NoDuplicates(xs) ==> Distinct(xs) == xs
    decreases |xs|
  {
    if xs != [] {
      var init := xs[..|xs| - 1];
      var x := xs[|xs| - 1];
      DistinctSpec(init);
      assert xs == init + [x];
      assert forall y :: y in xs <==> y in init || y == x;
      if NoDuplicates(xs) {
        assert NoDuplicates(init);
        assert x !in init;
      }
      if x !in init && NoDuplicates(init) {
        assert NoDuplicates(xs) by {
          forall i, j | 0 <= i < j < |xs| ensures xs[i] != xs[j] {
            if j == |xs| - 1 { assert xs[i] == init[i]; }
            else { assert xs[i] == init[i] && xs[j] == init[j]; }
          }
        }
      }
    }
  }

  /** `createMany({data: rows, skipDuplicates: true})`: the rows whose
      unique key is neither stored already nor taken by an earlier row of
      the batch. */
  function Fresh<T, K(==)>(existing: set<K>, rows: seq<T>, key: T -> K): seq<T>
    decreases |rows|
  {
    if rows == [] then []
    else if key(rows[0]) in existing then Fresh(existing, rows[1..], key)
    else [rows[0]] + Fresh(existing + {key(rows[0])}, rows[1..], key)
  }

  function Keys<T, K>(rows: seq<T>, key: T -> K): seq<K> {
    if rows == [] then [] else [key(rows[0])] + Keys(rows[1..], key)
  }

  /** The keys of a batch, row by row. */
  lemma {:induction false} KeysIndex<T, K>(rows: seq<T>, key: T -> K)
    ensures |Keys(rows, key)| == |rows|
    ensures forall i :: 0 <= i < |rows| ==> Keys(rows, key)[i] == key(rows[i])
    decreases |rows|
  {
    if rows != [] {
      KeysIndex(rows[1..], key);
      assert forall i :: 1 <= i < |rows| ==> rows[1..][i - 1] == rows[i];
    }
  }

  /** Only new rows are inserted, at most one per key, and none of them
      clashes with a stored key. */
  lemma {:induction false} FreshNew<T, K>(existing: set<K>, rows: seq<T>, key: T -> K)
    ensures |Fresh(existing, rows, key)| <= |rows|
    ensures forall x :: x in Fresh(existing, rows, key) ==> x in rows && key(x) !in existing
    ensures NoDuplicates(Keys(Fresh(existing, rows, key), key))
    decreases |rows|
  {
    if rows != [] {
      var tail := rows[1..];
      assert forall x :: x in tail ==> x in rows;
      if key(rows[0]) in existing {
        FreshNew(existing, tail, key);
      } else {
        var ext := existing + {key(rows[0])};
        FreshNew(ext, tail, key);
        var rest := Fresh(ext, tail, key);
        assert Fresh(existing, rows, key) == [rows[0]] + rest;
        KeysCons(rows[0], rest, key);
        KeysIndex(rest, key);
        assert key(rows[0]) !in Keys(rest, key) by {
          forall i | 0 <= i < |rest| ensures Keys(rest, key)[i] != key(rows[0]) {
            assert rest[i] in rest;
          }
        }
        ConsUnique(key(rows[0]), Keys(rest, key));
      }
    }
  }

  lemma KeysCons<T, K>(r: T, rest: seq<T>, key: T -> K)
    ensures Keys([r] + rest, key) == [key(r)] + Keys(rest, key)
  {
    assert ([r] + rest)[1..] == rest;
  }

  lemma ConsUnique<K>(k: K, xs: seq<K>)
    requires NoDuplicates(xs) && k !in xs
    ensures NoDuplicates([k] + xs)
  {
    var ys := [k] + xs;
    forall i, j | 0 <= i < j < |ys| ensures ys[i] != ys[j] {
      if i == 0 { assert ys[j] == xs[j - 1]; }
      else { assert ys[i] == xs[i - 1] && ys[j] == xs[j - 1]; }
    }
  }

  lemma NoDuplicatesTail<K>(xs: seq<K>)
    requires xs != [] && NoDuplicates(xs)
    ensures NoDuplicates(xs[1..]) && xs[0] !in xs[1..]
  {
    forall i, j | 0 <= i < j < |xs| - 1 ensures xs[1..][i] != xs[1..][j] {
      assert xs[1..][i] == xs[i + 1] && xs[1..][j] == xs[j + 1];
    }
    forall j | 0 <= j < |xs| - 1 ensures xs[1..][j] != xs[0] {
      assert xs[1..][j] == xs[j + 1];
    }
  }

  lemma KeysHas<T, K>(rows: seq<T>, key: T -> K, x: T)
    requires x in rows
    ensures key(x) in Keys(rows, key)
  {
    KeysIndex(rows, key);
    var i :| 0 <= i < |rows| && rows[i] == x;
    assert Keys(rows, key)[i] == key(x);
  }

  /** A batch of new rows with distinct keys is inserted whole. */
  lemma {:induction false} FreshAll<T, K>(existing: set<K>, rows: seq<T>, key: T -> K)
    requires NoDuplicates(Keys(rows, key))
    requires forall x :: x in rows ==> key(x) !in existing
    ensures Fresh(existing, rows, key) == rows
    decreases |rows|
  {
    if rows != [] {
      var tail := rows[1..];
      var ext := existing + {key(rows[0])};
      assert Keys(rows, key)[1..] == Keys(tail, key);
      NoDuplicatesTail(Keys(rows, key));
      forall x | x in tail ensures key(x) !in ext {
        KeysHas(tail, key, x);
      }
      FreshAll(ext, tail, key);
    }
  }
}
