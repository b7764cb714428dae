/** Shared vocabulary: optional values, calls that may throw, JavaScript truthiness of
    strings, ASCII case folding, and `String.prototype.split` on one separator character. */
module Common {

  datatype Option<+T> = None | Some(value: T)

  /** The outcome of a call that may throw: its value, or the message of the error it threw. */
  datatype Result<+T> = Ok(value: T) | Err(message: string)

  /** JavaScript truthiness of a string that may be absent: `undefined`, `null` and "" are falsy. */
  predicate Present(s: Option<string>) {
    s.Some? && s.value != ""
  }

  /** `a || b` where `a` may be absent and `b` is a string. */
  function OrElse(a: Option<string>, b: string): string {
    if Present(a) then a.value else b
  }

  /** A map lookup that yields `undefined` (None) for a missing key. */
  function Get<K, V>(m: map<K, V>, k: K): Option<V> {
    if k in m then Some(m[k]) else None
  }

  function Max(a: int, b: int): int {
    if a < b then b else a
  }

  /** `toLowerCase` restricted to ASCII letters; every other character is left as it is. */
  function LowerChar(c: char): char {
    if 'A' <= c <= 'Z' then (c as int - 'A' as int + 'a' as int) as char else c
  }

  /** `s.toLowerCase()`: no upper-case ASCII letter is left, and every other character is kept. */
  function Lower(s: string): (r: string)
    ensures |r| == |s|
    ensures forall i :: 0 <= i < |r| ==> !('A' <= r[i] <= 'Z')
    ensures forall i :: 0 <= i < |s| && !('A' <= s[i] <= 'Z') ==> r[i] == s[i]
  {
    seq(|s|, i requires 0 <= i < |s| => LowerChar(s[i]))
  }

  /** Lowering a lowered string changes nothing. */
  lemma LowerIdempotent(s: string)
    ensures Lower(Lower(s)) == Lower(s)
  {
    var r := Lower(s);
    forall i | 0 <= i < |r|
      ensures LowerChar(r[i]) == r[i]
    {
      assert !('A' <= r[i] <= 'Z');
    }
  }

  /** `a.toLowerCase() === b.toLowerCase()`. */
  predicate EqualsIgnoringCase(a: string, b: string) {
    Lower(a) == Lower(b)
  }

  /** `s.split(sep)`: the pieces between separators, in order. There is always one more piece
      than there are separators, and no piece contains the separator. */
  function Split(s: string, sep: char): (parts: seq<string>)
    ensures |parts| >= 1
    ensures forall i :: 0 <= i < |parts| ==> sep !in parts[i]
    decreases |s|
  {
    if s == [] then [""]
    else
      var rest := Split(s[1..], sep);
      if s[0] == sep then [""] + rest
      else [[s[0]] + rest[0]] + rest[1..]
  }

  /** `parts.join(sep)`, the inverse of Split. */
  function Join(parts: seq<string>, sep: char): string
    decreases |parts|
  {
    if parts == [] then ""
    else if |parts| == 1 then parts[0]
    else parts[0] + [sep] + Join(parts[1..], sep)
  }

  /** Joining the pieces of a split gives back the original string. */
  lemma {:induction false} JoinSplit(s: string, sep: char)
    ensures Join(Split(s, sep), sep) == s
    decreases |s|
  {
    if s != [] {
      var rest := Split(s[1..], sep);
      JoinSplit(s[1..], sep);
      if s[0] == sep {
        assert Split(s, sep) == [""] + rest;
        assert ([""] + rest)[1..] == rest;
        assert s == [sep] + s[1..];
      } else {
        var parts := [[s[0]] + rest[0]] + rest[1..];
        assert Split(s, sep) == parts;
        if |rest| == 1 {
          assert rest == [rest[0]];
          assert s == [s[0]] + s[1..];
        } else {
          assert parts[1..] == rest[1..];
          assert Join(rest, sep) == rest[0] + [sep] + Join(rest[1..], sep);
          assert s == [s[0]] + s[1..];
        }
      }
    }
  }

  /** A string without the separator splits into itself. */
  lemma {:induction false} SplitWithoutSeparator(s: string, sep: char)
    requires sep !in s
    ensures Split(s, sep) == [s]
    decreases |s|
  {
    if s != [] {
      assert s[0] in s;
      assert forall c :: c in s[1..] ==> c in s;
      SplitWithoutSeparator(s[1..], sep);
      assert s == [s[0]] + s[1..];
    }
  }

  /** Splitting at a first separator peels off the piece before it. */
  lemma {:induction false} SplitAtFirstSeparator(a: string, b: string, sep: char)
    requires sep !in a
    ensures Split(a + [sep] + b, sep) == [a] + Split(b, sep)
    decreases |a|
  {
    var s := a + [sep] + b;
    if a == [] {
      assert s == [sep] + b;
      assert s[1..] == b;
    } else {
      assert a[0] in a;
      assert forall c :: c in a[1..] ==> c in a;
      assert s[1..] == a[1..] + [sep] + b;
      SplitAtFirstSeparator(a[1..], b, sep);
      assert a == [a[0]] + a[1..];
    }
  }

  /** `s.split(sep)` has exactly two pieces iff `s` is two separator-free strings around one
      separator; the pieces are those two strings. */
  lemma SplitInTwo(s: string, sep: char, a: string, b: string)
    ensures (Split(s, sep) == [a, b]) <==> (s == a + [sep] + b && sep !in a && sep !in b)
  {
    if s == a + [sep] + b && sep !in a && sep !in b {
      SplitAtFirstSeparator(a, b, sep);
      SplitWithoutSeparator(b, sep);
    }
    if Split(s, sep) == [a, b] {
      JoinSplit(s, sep);
      assert Join([a, b], sep) == a + [sep] + Join([b], sep);
    }
  }
}

/** The parts of an HTTP response that the routes decide. */
module Http {

  /** A `Set-Cookie` header the response carries. */
  datatype SetCookie =
    | SetSessionCookie(sessionId: string, maxAge: int)  // `__session=<id>; Max-Age=<maxAge>`
    | ClearSessionCookie                                // `__session=; Max-Age=0`
    | DeleteCookie(name: string, path: string)          // Hono's deleteCookie

  /** `c.text(body, status)` or `c.redirect(location)` (status 302) with the cookies appended before it. */
  datatype Response =
    | Text(status: int, body: string)
    | Redirect(location: string, cookies: seq<SetCookie>)
  {
    function Status(): int {
      if Text? then status else 302
    }
  }
}
