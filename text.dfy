/** String helpers shared by the server and the browser client: prefix tests
    (`str.startswith` / `String.prototype.startsWith`), decimal rendering of a
    natural number (`f"{i}"`) and splitting at a separator (`str.split(",")`). */
module Text {
  import opened Wrappers

  /** `s` starts with `prefix`. */
  predicate StartsWith(s: string, prefix: string) {
    |prefix| <= |s| && s[..|prefix|] == prefix
  }

  predicate IsDigit(c: char) {
    '0' <= c <= '9'
  }

  function DigitChar(d: nat): (c: char)
    requires d < 10
    ensures IsDigit(c) && (c as int) - ('0' as int) == d
  {
    ('0' as int + d) as char
  }

  /** Decimal notation of `n`, without leading zeros, as Python's `str(n)`. */
  function NatToString(n: nat): (s: string)
    ensures |s| > 0 && forall i :: 0 <= i < |s| ==> IsDigit(s[i])
    ensures |s| > 1 ==> s[0] != '0'
  {
    if n < 10 then [DigitChar(n)] else NatToString(n / 10) + [DigitChar(n % 10)]
  }

  /** The number a string of decimal digits denotes. */
  function DigitsValue(s: string): nat
    requires forall i :: 0 <= i < |s| ==> IsDigit(s[i])
  {
    if s == [] then 0
    else
      var last := s[|s| - 1];
      assert IsDigit(last);
      DigitsValue(s[..|s| - 1]) * 10 + ((last as int) - ('0' as int))
  }

  /** Reading the decimal notation back gives the number: the notation is
      faithful, and hence distinct numbers get distinct notations. */
  lemma {:induction false} NatToStringRoundTrip(n: nat)
    ensures DigitsValue(NatToString(n)) == n
  {
    if n >= 10 {
      var s := NatToString(n / 10) + [DigitChar(n % 10)];
      assert s[..|s| - 1] == NatToString(n / 10);
      NatToStringRoundTrip(n / 10);
    }
  }

  lemma NatToStringInjective(m: nat, n: nat)
    requires m != n
    ensures NatToString(m) != NatToString(n)
  {
    NatToStringRoundTrip(m);
    NatToStringRoundTrip(n);
  }

  /** The fields of `s` between occurrences of `sep`, as `s.split(sep)` for a
      one-character separator: always at least one field. */
  function Split(s: string, sep: char): (fields: seq<string>)
    ensures |fields| >= 1
    ensures forall k :: 0 <= k < |fields| ==> sep !in fields[k]
  {
    if s == [] then [""]
    else
      var rest := Split(s[1..], sep);
      if s[0] == sep then [""] + rest
      else [[s[0]] + rest[0]] + rest[1..]
  }

  /** `sep.join(fields)`. */
  function Join(fields: seq<string>, sep: char): string
    requires |fields| >= 1
  {
    if |fields| == 1 then fields[0] else fields[0] + [sep] + Join(fields[1..], sep)
  }

  /** Splitting loses nothing: joining the fields again restores the string. */
  lemma {:induction false} JoinSplit(s: string, sep: char)
    ensures Join(Split(s, sep), sep) == s
  {
    if s != [] {
      var rest := Split(s[1..], sep);
      JoinSplit(s[1..], sep);
      if s[0] == sep {
        assert Split(s, sep)[1..] == rest;
      } else {
        var fields := Split(s, sep);
        if |rest| == 1 {
          assert fields == [[s[0]] + rest[0]];
        } else {
          assert fields[1..] == rest[1..];
          assert Join(fields, sep) == [s[0]] + rest[0] + [sep] + Join(rest[1..], sep);
        }
      }
    }
  }

  /** There are as many fields as separators plus one. */
  lemma {:induction false} SplitCount(s: string, sep: char)
    ensures |Split(s, sep)| == multiset(s)[sep] + 1
  {
    if s != [] {
      SplitCount(s[1..], sep);
      assert s == [s[0]] + s[1..];
      assert multiset(s) == multiset{s[0]} + multiset(s[1..]);
    }
  }

  /** `s.split(sep)[1]`: the second field, or None where Python raises
      IndexError because `s` holds no separator. */
  function SecondField(s: string, sep: char): (r: Option<string>)
    ensures r.Some? <==> sep in s
  {
    var fields := Split(s, sep);
    SplitCount(s, sep);
    if |fields| > 1 then Some(fields[1]) else None
  }

  /** The second field of `head + [sep] + body` is `body` whenever neither
      `head` nor `body` holds the separator: for a data URL
      "data:image/jpeg;base64,<b64>" it is exactly the base64 payload. */
  lemma {:induction false} SecondFieldAfterHeader(head: string, body: string, sep: char)
    requires sep !in head && sep !in body
    ensures SecondField(head + [sep] + body, sep) == Some(body)
  {
    var s := [sep] + body;
    assert head + [sep] + body == head + s;
    SplitHeadField(head, s, sep);
    assert s[0] == sep && s[1..] == body;
    SplitNoSep(body, sep);
    assert Split(s, sep) == [""] + [body];
  }

  lemma {:induction false} SplitNoSep(s: string, sep: char)
    requires sep !in s
    ensures Split(s, sep) == [s]
  {
    if s != [] {
      assert sep !in s[1..];
      SplitNoSep(s[1..], sep);
      assert [s[0]] + s[1..] == s;
    }
  }

  /** A separator-free prefix glues onto the first field of the rest. */
  lemma {:induction false} SplitHeadField(head: string, tail: string, sep: char)
    requires sep !in head
    ensures var f := Split(head + tail, sep); var g := Split(tail, sep);
      |f| == |g| && f[0] == head + g[0] && f[1..] == g[1..]
  {
    if head != [] {
      var s := head + tail;
      assert s[0] == head[0] && s[1..] == head[1..] + tail;
      assert sep !in head[1..];
      SplitHeadField(head[1..], tail, sep);
      assert [head[0]] + head[1..] == head;
    } else {
      assert head + tail == tail;
    }
  }
}
