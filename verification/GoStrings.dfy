// The few functions of Go's strings and fmt packages that subjects and keys are built with, over sequences of
// Unicode scalars.

module GoStrings {
  import opened Common

  // unicode.IsSpace
  predicate IsSpace(c: char) {
    || '\U{9}' <= c <= '\U{D}' || c == ' ' || c == '\U{85}' || c == '\U{A0}' || c == '\U{1680}'
    || '\U{2000}' <= c <= '\U{200A}' || c == '\U{2028}' || c == '\U{2029}' || c == '\U{202F}'
    || c == '\U{205F}' || c == '\U{3000}'
  }

  function TrimLeft(s: string): (r: string)
    ensures r == "" || !IsSpace(r[0])
  {
    if s != "" && IsSpace(s[0]) then TrimLeft(s[1..]) else s
  }

  function TrimRight(s: string): (r: string)
    ensures r == "" || !IsSpace(r[|r| - 1])
    ensures r <= s
  {
    if s != "" && IsSpace(s[|s| - 1]) then TrimRight(s[..|s| - 1]) else s
  }

  function TrimSpace(s: string): string {
    TrimRight(TrimLeft(s))
  }

  // What the validators of names, patterns and queue groups look for.
  const WHITESPACE := " \t\r\n"

  predicate ContainsAny(s: string, chars: string) {
    exists i :: 0 <= i < |s| && s[i] in chars
  }

  function Count(s: string, sep: string): nat
    requires sep != ""
  {
    if |s| < |sep| then 0
    else if sep <= s then 1 + Count(s[|sep|..], sep)
    else Count(s[1..], sep)
  }

  function ReplaceAll(s: string, sep: string, new_: string): string
    requires sep != ""
  {
    if |s| < |sep| then s
    else if sep <= s then new_ + ReplaceAll(s[|sep|..], sep, new_)
    else [s[0]] + ReplaceAll(s[1..], sep, new_)
  }

  function Split(s: string, sep: string): (parts: seq<string>)
    requires sep != ""
    ensures parts != []
  {
    if |s| < |sep| then [s]
    else if sep <= s then [""] + Split(s[|sep|..], sep)
    else var rest := Split(s[1..], sep); [[s[0]] + rest[0]] + rest[1..]
  }

  function Join(parts: seq<string>, sep: string): string {
    if parts == [] then ""
    else if |parts| == 1 then parts[0]
    else parts[0] + sep + Join(parts[1..], sep)
  }

  // fmt.Sprintf for string arguments. Only %s and %% are given a meaning: a directive of any other kind, a missing
  // argument and a left-over argument all yield None.
  function Sprintf(format: string, args: seq<string>): Option<string> {
    if format == "" then if args == [] then Some("") else None
    else if format[0] != '%' then
      var r := Sprintf(format[1..], args);
      if r.None? then None else Some([format[0]] + r.value)
    else if |format| >= 2 && format[1] == 's' && args != [] then
      var r := Sprintf(format[2..], args[1..]);
      if r.None? then None else Some(args[0] + r.value)
    else if |format| >= 2 && format[1] == '%' then
      var r := Sprintf(format[2..], args);
      if r.None? then None else Some("%" + r.value)
    else None
  }

  // ---- splitting and joining ----

  predicate Free(parts: seq<string>, c: char) {
    forall i | 0 <= i < |parts| :: c !in parts[i]
  }

  lemma {:induction false} JoinOfSplit(s: string, sep: string)
    requires sep != ""
    ensures Join(Split(s, sep), sep) == s
    ensures |Split(s, sep)| == Count(s, sep) + 1
  {
    if |s| < |sep| {
    } else if sep <= s {
      JoinOfSplit(s[|sep|..], sep);
      JoinAfterSep(Split(s[|sep|..], sep), sep);
      assert s == sep + s[|sep|..];
    } else {
      JoinOfSplit(s[1..], sep);
      JoinAfterChar(s[0], Split(s[1..], sep), sep);
      assert s == [s[0]] + s[1..];
    }
  }

  lemma JoinAfterSep(rest: seq<string>, sep: string)
    requires rest != []
    ensures Join([""] + rest, sep) == sep + Join(rest, sep)
  {
    assert ([""] + rest)[1..] == rest;
  }

  lemma JoinAfterChar(c: char, rest: seq<string>, sep: string)
    requires rest != []
    ensures Join([[c] + rest[0]] + rest[1..], sep) == [c] + Join(rest, sep)
  {
    var parts := [[c] + rest[0]] + rest[1..];
    assert parts[1..] == rest[1..];
    if |rest| > 1 {
      assert [c] + rest[0] + sep + Join(rest[1..], sep) == [c] + (rest[0] + sep + Join(rest[1..], sep));
    }
  }

  // Parts without the first character of the separator can be read back.
  lemma {:induction false} SplitOfJoin(parts: seq<string>, sep: string)
    requires sep != "" && parts != [] && Free(parts, sep[0])
    ensures Split(Join(parts, sep), sep) == parts
  {
    if |parts| == 1 {
      SplitOfPrefix(parts[0], "", sep);
      assert parts[0] + "" == parts[0];
    } else {
      SplitOfJoin(parts[1..], sep);
      var tail := sep + Join(parts[1..], sep);
      assert Join(parts, sep) == parts[0] + tail;
      assert tail[|sep|..] == Join(parts[1..], sep);
      SplitOfPrefix(parts[0], tail, sep);
      assert parts == [parts[0]] + parts[1..];
    }
  }

  lemma {:induction false} SplitOfPrefix(p: string, tail: string, sep: string)
    requires sep != "" && sep[0] !in p && (tail == "" || sep <= tail)
    ensures Split(p + tail, sep) == if tail == "" then [p] else [p] + Split(tail[|sep|..], sep)
  {
    var s := p + tail;
    if p == "" {
      assert s == tail;
    } else {
      assert s[0] == p[0] && s[1..] == p[1..] + tail;
      SplitOfPrefix(p[1..], tail, sep);
      assert p == [p[0]] + p[1..];
      assert !(sep <= s);
      if |s| < |sep| {
        assert s == p;
      } else {
        var rest := Split(s[1..], sep);
        assert rest[0] == p[1..];
      }
    }
  }

  // Removing the separator keeps the parts.
  lemma {:induction false} RemovedIsParts(s: string, sep: string, c: char)
    requires sep != ""
    ensures c in ReplaceAll(s, sep, "") <==> !Free(Split(s, sep), c)
  {
    if |s| < |sep| {
      assert Split(s, sep)[0] == s;
    } else if sep <= s {
      RemovedIsParts(s[|sep|..], sep, c);
      FreeOfCons("", Split(s[|sep|..], sep), c);
    } else {
      RemovedIsParts(s[1..], sep, c);
      var rest := Split(s[1..], sep);
      FreeOfCons([s[0]] + rest[0], rest[1..], c);
      FreeOfCons(rest[0], rest[1..], c);
      assert rest == [rest[0]] + rest[1..];
    }
  }

  lemma FreeOfCons(p: string, rest: seq<string>, c: char)
    ensures Free([p] + rest, c) <==> c !in p && Free(rest, c)
  {
    var all := [p] + rest;
    assert all[0] == p && forall i | 0 <= i < |rest| :: all[i + 1] == rest[i];
    if c !in p && Free(rest, c) {
      forall i | 0 <= i < |all| ensures c !in all[i] {
        assert i > 0 ==> all[i] == rest[i - 1];
      }
    } else if c !in p {
      var i :| 0 <= i < |rest| && c in rest[i];
      assert c in all[i + 1];
    }
  }

  // ---- reading back what stands before a mark ----

  // If the mark class does not occur before the first mark, the two halves are determined.
  lemma {:induction false} CutUnique(
    a: string, m: char, b: string, a': string, m': char, b': string, mark: char -> bool)
    requires a + [m] + b == a' + [m'] + b'
    requires mark(m) && mark(m')
    requires (forall i | 0 <= i < |a| :: !mark(a[i])) && (forall i | 0 <= i < |a'| :: !mark(a'[i]))
    ensures a == a' && m == m' && b == b'
  {
    var s := a + [m] + b;
    if a != "" && a' != "" {
      assert s[0] == a[0] == a'[0];
      assert s[1..] == a[1..] + [m] + b == a'[1..] + [m'] + b';
      CutUnique(a[1..], m, b, a'[1..], m', b', mark);
      assert a == [a[0]] + a[1..] && a' == [a'[0]] + a'[1..];
    } else {
      assert s[0] == (a' + [m'] + b')[0];
      assert b == s[|a| + 1..] && b' == s[|a'| + 1..];
    }
  }

  // ---- trimming ----

  lemma {:induction false} TrimLeftParts(s: string)
    ensures exists k :: 0 <= k <= |s| && TrimLeft(s) == s[k..] && forall i | 0 <= i < k :: IsSpace(s[i])
  {
    if s != "" && IsSpace(s[0]) {
      TrimLeftParts(s[1..]);
      var k :| 0 <= k <= |s[1..]| && TrimLeft(s[1..]) == s[1..][k..] && forall i | 0 <= i < k :: IsSpace(s[1..][i]);
      assert s[1..][k..] == s[k + 1..];
      assert forall i | 0 < i < k + 1 :: s[i] == s[1..][i - 1];
    } else {
      assert s == s[0..];
    }
  }

  // A string that neither begins nor ends with a space is its own trimmed form.
  lemma TrimOfClean(s: string)
    requires s == "" || (!IsSpace(s[0]) && !IsSpace(s[|s| - 1]))
    ensures TrimSpace(s) == s
  {
  }

  lemma {:induction false} TrimIsClean(s: string)
    ensures var r := TrimSpace(s); r == "" || (!IsSpace(r[0]) && !IsSpace(r[|r| - 1]))
    ensures TrimSpace(TrimSpace(s)) == TrimSpace(s)
    ensures forall c | c in TrimSpace(s) :: c in s
  {
    var l := TrimLeft(s);
    TrimLeftParts(s);
    var r := TrimSpace(s);
    assert r <= l;
    if r != "" {
      assert r[0] == l[0];
    }
    TrimOfClean(r);
  }

  // A string with anything but space in it does not trim to nothing.
  lemma HasInk(s: string, i: nat)
    requires i < |s| && !IsSpace(s[i])
    ensures TrimSpace(s) != ""
  {
    TrimLeftParts(s);
    var k :| 0 <= k <= |s| && TrimLeft(s) == s[k..] && forall j | 0 <= j < k :: IsSpace(s[j]);
    assert k <= i && s[k..][i - k] == s[i];
    TrimRightKeeps(s[k..], i - k);
  }

  lemma {:induction false} TrimRightKeeps(s: string, i: nat)
    requires i < |s| && !IsSpace(s[i])
    ensures TrimRight(s) != ""
  {
    if IsSpace(s[|s| - 1]) {
      TrimRightKeeps(s[..|s| - 1], i);
    }
  }

  lemma {:induction false} TrimRightParts(s: string)
    ensures exists k :: 0 <= k <= |s| && TrimRight(s) == s[..k] && forall i | k <= i < |s| :: IsSpace(s[i])
  {
    if s != "" && IsSpace(s[|s| - 1]) {
      var front := s[..|s| - 1];
      TrimRightParts(front);
      var k :| 0 <= k <= |front| && TrimRight(front) == front[..k] && forall i | k <= i < |front| :: IsSpace(front[i]);
      assert front[..k] == s[..k];
      assert forall i | k <= i < |s| - 1 :: s[i] == front[i];
    } else {
      assert s == s[..|s|];
    }
  }

  predicate SpacesAround(s: string, i: nat, j: nat) {
    i <= j <= |s| && (forall k | 0 <= k < i :: IsSpace(s[k])) && (forall k | j <= k < |s| :: IsSpace(s[k]))
  }

  // Trimming cuts off spaces in front and behind, and nothing else; TrimIsClean says that it cuts off all of them.
  lemma TrimCuts(s: string) returns (i: nat, j: nat)
    ensures SpacesAround(s, i, j) && TrimSpace(s) == s[i..j]
  {
    TrimLeftParts(s);
    i :| 0 <= i <= |s| && TrimLeft(s) == s[i..] && forall k | 0 <= k < i :: IsSpace(s[k]);
    var l := s[i..];
    TrimRightParts(l);
    var n :| 0 <= n <= |l| && TrimRight(l) == l[..n] && forall k | n <= k < |l| :: IsSpace(l[k]);
    j := i + n;
    assert forall k | j <= k < |s| :: s[k] == l[k - i];
    assert l[..n] == s[i..j];
  }

  // A string trims to nothing iff it is all space.
  lemma BlankIffSpaces(s: string)
    ensures TrimSpace(s) == "" <==> forall i | 0 <= i < |s| :: IsSpace(s[i])
  {
    if i: nat :| i < |s| && !IsSpace(s[i]) {
      HasInk(s, i);
    } else {
      var i, j := TrimCuts(s);
      TrimIsClean(s);
    }
  }
}
