/** Splitting and joining strings, and reading a file, over buffers that grow. */
module Strings {

  /** An entry of a NULL-terminated array of strings. */
  datatype Slot = Null | Str(text: string)

  // ----- what splitting and joining mean

  /** strcspn: the number of leading characters that are no delimiters. */
  function Cspn(s: string, delims: string): (n: nat)
    ensures n <= |s| && (forall i | 0 <= i < n :: s[i] !in delims) && (n < |s| ==> s[n] in delims)
  {
    if s == [] || s[0] in delims then 0 else 1 + Cspn(s[1..], delims)
  }

  /** strspn: the number of leading characters that are delimiters. */
  function Spn(s: string, delims: string): (n: nat)
    ensures n <= |s| && (forall i | 0 <= i < n :: s[i] in delims) && (n < |s| ==> s[n] !in delims)
  {
    if s == [] || s[0] !in delims then 0 else 1 + Spn(s[1..], delims)
  }

  /** The pieces of s: each ends before a delimiter or at the end of s. */
  ghost function Split(s: string, delims: string): seq<string>
    decreases |s|
  {
    if s == [] then []
    else
      var n := Cspn(s, delims);
      [s[..n]] + Split(if n < |s| then s[n + 1..] else [], delims)
  }

  ghost function Join(ls: seq<string>, delim: string): string {
    if ls == [] then [] else ls[0] + delim + Join(ls[1..], delim)
  }

  /** The leading piece is found again. */
  lemma CspnOf(a: string, d: char, rest: string)
    requires d !in a
    ensures Cspn(a + [d] + rest, [d]) == |a|
  {
    var n, s := Cspn(a + [d] + rest, [d]), a + [d] + rest;
    assert s[|a|] == d;
    assert forall i | 0 <= i < |a| :: s[i] == a[i] && a[i] in a;
  }

  lemma SplitOnce(s: string, delims: string)
    requires s != []
    ensures var n := Cspn(s, delims);
      Split(s, delims) == [s[..n]] + Split(if n < |s| then s[n + 1..] else [], delims)
  {
  }

  lemma SplitFirst(a: string, d: char, rest: string)
    requires d !in a
    ensures Split(a + [d] + rest, [d]) == [a] + Split(rest, [d])
  {
    hide Cspn, Split;
    var s := a + [d] + rest;
    CspnOf(a, d, rest);
    SplitOnce(s, [d]);
    assert s[..|a|] == a && s[|a| + 1..] == rest;
  }

  /** Splitting undoes joining, for strings free of the delimiter. */
  lemma {:induction false} SplitJoin(ls: seq<string>, d: char)
    requires forall l | l in ls :: d !in l
    ensures Split(Join(ls, [d]), [d]) == ls
  {
    hide Split;
    if ls == [] {
      SplitEnd([d]);
    } else {
      assert ls[0] in ls;
      SplitFirst(ls[0], d, Join(ls[1..], [d]));
      SplitJoin(ls[1..], d);
      assert [ls[0]] + ls[1..] == ls;
    }
  }

  lemma JoinNone(d: char)
    ensures Join([], [d]) == [] && Ended([], d) == []
  {
  }

  lemma JoinFirst(l: string, ls: seq<string>, delim: string)
    ensures Join([l] + ls, delim) == l + delim + Join(ls, delim)
  {
  }

  /** The text with its last piece ended. */
  function Ended(s: string, d: char): string {
    if s == [] || s[|s| - 1] == d then s else s + [d]
  }

  lemma EndedFirst(s: string, n: nat, d: char)
    requires n <= |s| && s != [] && (forall i | 0 <= i < n :: s[i] != d) && (n < |s| ==> s[n] == d)
    ensures s[..n] + [d] + Ended(if n < |s| then s[n + 1..] else [], d) == Ended(s, d)
  {
    if n < |s| {
      var rest := s[n + 1..];
      assert s == s[..n] + [d] + rest;
      assert rest != [] ==> rest[|rest| - 1] == s[|s| - 1];
    } else {
      assert s[..n] == s && s[|s| - 1] != d;
    }
  }

  /** Joining undoes splitting, except that a last piece that no delimiter ends gets
      one. */
  lemma {:induction false} JoinSplit(s: string, d: char)
    ensures Join(Split(s, [d]), [d]) == Ended(s, d)
    decreases |s|
  {
    hide Join, Ended, Split;
    if s == [] {
      JoinNone(d);
      SplitEnd([d]);
    } else {
      var n := Cspn(s, [d]);
      SplitOnce(s, [d]);
      var rest := if n < |s| then s[n + 1..] else [];
      JoinFirst(s[..n], Split(rest, [d]), [d]);
      JoinSplit(rest, d);
      EndedFirst(s, n, d);
    }
  }

  /** One piece and the single delimiter after it, if any. */
  lemma SplitStep(s: string, delims: string, pos: nat)
    requires pos < |s|
    ensures var len := Cspn(s[pos..], delims);
            var end := pos + len;
            var next := end + if Spn(s[end..], delims) != 0 then 1 else 0;
            end <= |s| && pos < next <= |s| && Split(s[pos..], delims) == [s[pos..end]] + Split(s[next..], delims)
  {
    hide Cspn, Spn, Split;
    var rest := s[pos..];
    var len := Cspn(rest, delims);
    SplitOnce(rest, delims);
    SpnIsOne(s[pos + len..], delims);
    TailOfTail(s, pos, len);
  }

  lemma TailOfTail(s: string, pos: nat, len: nat)
    requires pos + len <= |s|
    ensures s[pos..][..len] == s[pos..pos + len]
    ensures if len < |s[pos..]| then s[pos..][len + 1..] == s[pos + len + 1..] && s[pos + len..][0] == s[pos..][len]
            else s[pos + len..] == []
  {
  }

  lemma SpnIsOne(s: string, delims: string)
    ensures Spn(s, delims) != 0 <==> s != [] && s[0] in delims
  {
  }

  lemma SplitEnd(delims: string)
    ensures Split([], delims) == []
  {
  }

  // ----- strsplit

  /** talloc_realloc of an array: as many entries as fit are kept. */
  method Grow<T(0)>(a: array<T>, size: nat) returns (b: array<T>)
    ensures fresh(b) && b.Length == size
    ensures forall i | 0 <= i < a.Length && i < size :: b[i] == a[i]
  {
    b := new T[size];
    for i := 0 to if a.Length < size then a.Length else size
      invariant forall j | 0 <= j < i :: b[j] == a[j]
    {
      b[i] := a[i];
    }
  }

  /** The entries in use stand for the pieces. */
  ghost predicate Holds(slots: seq<Slot>, pieces: seq<string>) {
    |slots| == |pieces| && forall i {:trigger slots[i]} | 0 <= i < |slots| :: slots[i] == Str(pieces[i])
  }

  /** One more piece is stored, and the array grows when it is full. */
  method Store(lines: array<Slot>, num: nat, max: nat, piece: string, ghost pieces: seq<string>)
    returns (lines': array<Slot>, max': nat)
    requires num < max <= lines.Length && Holds(lines[..num], pieces)
    modifies lines
    ensures (lines' == lines || fresh(lines')) && num + 1 < max' <= lines'.Length
    ensures Holds(lines'[..num + 1], pieces + [piece])
  {
    lines', max' := lines, max;
    lines[num] := Str(piece);
    ghost var slots := lines[..num + 1];
    assert slots[..num] == old(lines[..num]);
    assert forall i {:trigger slots[i]} | 0 <= i < num :: slots[i] == old(lines[..num])[i];
    if num + 1 == max {
      max' := max * 3; // max*=2 + 1
      lines' := Grow(lines, max');
    }
    assert lines'[..num + 1] == slots;
  }

  /** strsplit */
  method StrSplit(s: string, delims: string) returns (lines: array<Slot>, num: nat)
    ensures fresh(lines) && num < lines.Length && lines[num] == Null
    ensures Holds(lines[..num], Split(s, delims))
  {
    hide Split, Cspn, Spn;
    var max: nat;
    max, num := 64, 0;
    lines := new Slot[max + 1];
    var pos := 0;
    ghost var pieces: seq<string> := [];
    assert s[0..] == s;
    while pos < |s|
      invariant pos <= |s| && fresh(lines) && num < max <= lines.Length
      invariant pieces + Split(s[pos..], delims) == Split(s, delims)
      invariant Holds(lines[..num], pieces)
      decreases |s| - pos
    {
      SplitStep(s, delims, pos);
      var len := Cspn(s[pos..], delims);
      var piece := s[pos..pos + len];
      lines, max := Store(lines, num, max, piece, pieces);
      pos := pos + len;
      pos := pos + if Spn(s[pos..], delims) != 0 then 1 else 0;
      num := num + 1;
      assert pieces + [piece] + Split(s[pos..], delims) == pieces + ([piece] + Split(s[pos..], delims));
      pieces := pieces + [piece];
    }
    SplitEnd(delims);
    assert s[pos..] == [] && pieces + [] == pieces;
    ghost var slots := lines[..num];
    lines[num] := Null;
    assert lines[..num] == slots;
  }

  // ----- strjoin

  /** The C string in a buffer: what is before the first NUL. */
  ghost function Text(b: seq<char>): string {
    if b == [] || b[0] == '\0' then [] else [b[0]] + Text(b[1..])
  }

  ghost predicate Terminated(b: seq<char>) {
    '\0' in b
  }

  lemma {:induction false} TextOf(t: string, rest: seq<char>)
    requires '\0' !in t
    ensures Text(t + ['\0'] + rest) == t
  {
    var b := t + ['\0'] + rest;
    if t == [] {
      assert b[0] == '\0';
    } else {
      assert b[0] == t[0] && b[1..] == t[1..] + ['\0'] + rest;
      assert t[0] in t;
      TextOf(t[1..], rest);
    }
  }

  lemma {:induction false} TextFits(b: seq<char>)
    requires Terminated(b)
    ensures |Text(b)| < |b| && b[|Text(b)|] == '\0' && Text(b) == b[..|Text(b)|] && '\0' !in Text(b)
  {
    if b[0] != '\0' {
      TextFits(b[1..]);
      assert b == [b[0]] + b[1..];
    }
  }

  /** strlen */
  method StrLen(b: array<char>) returns (n: nat)
    requires Terminated(b[..])
    ensures n == |Text(b[..])|
  {
    TextFits(b[..]);
    ghost var text := Text(b[..]);
    assert forall i | 0 <= i < |text| :: text[i] == b[i] && text[i] in text;
    n := 0;
    while b[n] != '\0'
      invariant n <= |text|
      decreases b.Length - n
    {
      n := n + 1;
    }
  }

  /** talloc_append_string */
  method AppendString(orig: array<char>, append: string) returns (ret: array<char>)
    requires Terminated(orig[..]) && '\0' !in append
    ensures fresh(ret) && Terminated(ret[..]) && Text(ret[..]) == Text(orig[..]) + append
  {
    TextFits(orig[..]);
    var olen := StrLen(orig);
    var alenz := |append| + 1;
    ret := Grow(orig, olen + alenz);
    ghost var text := ret[..olen];
    assert text == Text(orig[..]);
    for i := 0 to |append|
      invariant ret[..olen] == text && forall j | 0 <= j < i :: ret[olen + j] == append[j]
    {
      ret[olen + i] := append[i];
    }
    ret[olen + |append|] := '\0';
    assert ret[..] == text + append + ['\0'] + [];
    TextOf(text + append, []);
  }

  /** The strings before the first NULL. */
  ghost function Strings(a: seq<Slot>): seq<string> {
    if a == [] || a[0] == Null then [] else [a[0].text] + Strings(a[1..])
  }

  lemma {:induction false} StringsUpTo(a: seq<Slot>, n: nat)
    requires n < |a| && a[n] == Null && forall i | 0 <= i < n :: a[i] != Null
    ensures |Strings(a)| == n && forall i | 0 <= i < n :: Str(Strings(a)[i]) == a[i]
  {
    if n > 0 { StringsUpTo(a[1..], n - 1); }
  }

  lemma {:induction false} JoinMore(ls: seq<string>, l: string, delim: string)
    ensures Join(ls + [l], delim) == Join(ls, delim) + l + delim
  {
    if ls == [] {
      assert ls + [l] == [l];
    } else {
      assert (ls + [l])[1..] == ls[1..] + [l];
      JoinMore(ls[1..], l, delim);
    }
  }

  /** strjoin */
  method StrJoin(strings: array<Slot>, delim: string) returns (ret: array<char>)
    requires Null in strings[..] && '\0' !in delim
    requires forall i | 0 <= i < strings.Length && strings[i].Str? :: '\0' !in strings[i].text
    ensures fresh(ret) && Terminated(ret[..]) && Text(ret[..]) == Join(Strings(strings[..]), delim)
  {
    ret := new char[1]['\0'];
    assert ret[..] == ['\0'];
    var i: nat := 0;
    ghost var done: seq<string> := [];
    ghost var end :| 0 <= end < strings.Length && strings[end] == Null;
    while strings[i] != Null
      invariant i <= end && |done| == i && fresh(ret) && Terminated(ret[..]) && Text(ret[..]) == Join(done, delim)
      invariant forall j | 0 <= j < i :: strings[j] == Str(done[j])
      decreases end - i
    {
      JoinMore(done, strings[i].text, delim);
      ret := AppendString(ret, strings[i].text);
      ret := AppendString(ret, delim);
      done := done + [strings[i].text];
      i := i + 1;
    }
    StringsUpTo(strings[..], i);
    assert done == Strings(strings[..]);
  }

  // ----- grab_fd

  /** grab_fd: the file holds `data`, the k-th read finds at most burst(k) + 1 bytes
      ready, and fails if fails(k). */
  method GrabFd(data: seq<char>, burst: nat -> nat, fails: nat -> bool)
    returns (buffer: array?<char>, size: nat, ghost calls: nat)
    ensures calls > 0 && (forall k: nat | k < calls - 1 :: !fails(k)) && (buffer == null <==> fails(calls - 1))
    ensures buffer != null ==>
              size == |data| && size < buffer.Length && buffer[..size] == data && buffer[size] == '\0'
  {
    var max: nat := 16384;
    size, calls := 0, 0;
    var buf := new char[max + 1];
    var ret: int;
    ret := if fails(0) then -1 else Min(Min(burst(0) + 1, max), |data|);
    var k: nat := 0;
    while ret > 0
      invariant size <= |data| && size < max <= buf.Length && buf[..size] == data[..size] && fresh(buf)
      invariant calls == k && forall j: nat | j < k :: !fails(j)
      invariant ret == if fails(k) then -1 else Min(Min(burst(k) + 1, max - size), |data| - size)
      decreases |data| - size
    {
      // the bytes that read stores at buffer + *size
      for i := 0 to ret
        invariant buf[..size] == data[..size] && forall j | size <= j < size + i :: buf[j] == data[j]
      {
        buf[size + i] := data[size + i];
      }
      ghost var before := size;
      size := size + ret;
      assert forall j | 0 <= j < before :: buf[j] == buf[..before][j];
      assert buf[..size] == data[..size];
      if size == max {
        max := max * 3; // max*=2 + 1
        ghost var kept := buf[..size];
        buf := Grow(buf, max);
        assert buf[..size] == kept;
      }
      k := k + 1;
      calls := k;
      ret := if fails(k) then -1 else Min(Min(burst(k) + 1, max - size), |data| - size);
    }
    calls := k + 1;
    if ret < 0 {
      buffer := null;
    } else {
      buf[size] := '\0';
      buffer := buf;
    }
  }

  function Min(a: int, b: int): int { if a < b then a else b }
}
