/** The growable string of vstring.c. */
module VString {
  const INITIAL: nat := 256

  // ---------- sizes ----------

  /** What appends do to the sizes alone: moved counts the bytes reallocations copied. */
  datatype Size = Size(cap: nat, len: nat, moved: nat)

  /** The doubling loop. */
  function Want(cap: nat, need: nat): (w: nat)
    requires cap > 0
    ensures w >= cap && w >= need
    ensures w == cap || w < 2 * need
    ensures w > cap ==> w >= 2 * cap
    decreases need - cap
  {
    if cap < need then Want(cap * 2, need) else cap
  }

  /** An append of n characters, none of which does nothing. */
  function Appended(s: Size, n: nat): Size
    requires s.cap > 0
  {
    if n == 0 then s
    else
      var cap := Want(s.cap, s.len + n + 1);
      Size(cap, s.len + n, s.moved + if cap > s.cap then s.cap else 0)
  }

  function Power(k: nat): nat
    decreases k
  {
    if k == 0 then 1 else 2 * Power(k - 1)
  }

  /** The capacity is 256 doubled, no more often than the length needs, and all the copying
      together is less than the capacity reached. */
  ghost predicate Frugal(s: Size) {
    && (exists k: nat :: s.cap == INITIAL * Power(k))
    && s.len < s.cap
    && (s.cap == INITIAL || s.cap < 2 * (s.len + 1))
    && s.moved < s.cap
  }

  lemma {:induction false} WantDoubles(cap: nat, need: nat, k: nat) returns (j: nat)
    requires cap == INITIAL * Power(k) && cap > 0
    ensures Want(cap, need) == INITIAL * Power(j)
    decreases need - cap
  {
    PowerPositive(k);
    if cap < need {
      assert cap * 2 == INITIAL * Power(k + 1);
      j := WantDoubles(cap * 2, need, k + 1);
    } else {
      j := k;
    }
  }

  lemma {:induction false} PowerPositive(k: nat)
    ensures Power(k) >= 1
    decreases k
  {
    if k > 0 {
      PowerPositive(k - 1);
    }
  }

  lemma AppendFrugal(s: Size, n: nat)
    requires Frugal(s)
    ensures Frugal(Appended(s, n))
  {
    if n > 0 {
      var k: nat :| s.cap == INITIAL * Power(k);
      var j := WantDoubles(s.cap, s.len + n + 1, k);
    }
  }

  /** The sizes after the first m appends of a run. */
  function SizeAfter(ns: seq<nat>, m: nat): (s: Size)
    requires m <= |ns|
    ensures s.cap > 0
    decreases m
  {
    if m == 0 then Size(INITIAL, 0, 0) else Appended(SizeAfter(ns, m - 1), ns[m - 1])
  }

  /** So it is after any run of appends. */
  lemma {:induction false} RunFrugal(ns: seq<nat>, m: nat)
    requires m <= |ns|
    ensures Frugal(SizeAfter(ns, m))
    decreases m
  {
    if m == 0 {
      assert Power(0) == 1;
    } else {
      RunFrugal(ns, m - 1);
      AppendFrugal(SizeAfter(ns, m - 1), ns[m - 1]);
    }
  }

  // ---------- indented text ----------

  function Spaces(n: nat): string
    decreases n
  {
    if n == 0 then "" else " " + Spaces(n - 1)
  }

  function Width(indent: int): nat {
    if indent < 0 then -indent else indent
  }

  /** The place of the first newline, or the length. */
  function LineEnd(txt: string): (n: nat)
    ensures n <= |txt| && '\n' !in txt[..n] && (n < |txt| ==> txt[n] == '\n')
    decreases |txt|
  {
    if txt == "" || txt[0] == '\n' then 0
    else
      assert forall n :: 0 <= n < |txt| ==> txt[..n + 1] == [txt[0]] + txt[1..][..n];
      1 + LineEnd(txt[1..])
  }

  /** Every line of a text with a pad before it and a newline after it. */
  function Indented(pad: string, txt: string): string
    decreases |txt|
  {
    if txt == "" then ""
    else
      var n := LineEnd(txt);
      pad + txt[..n] + "\n" + if n == |txt| then "" else Indented(pad, txt[n + 1..])
  }

  /** Every line of a text without its first k characters. */
  function Unindented(k: nat, txt: string): string
    decreases |txt|
  {
    if txt == "" then ""
    else
      var n := LineEnd(txt);
      var cut := if k < n then k else n;
      txt[cut..n] + if n == |txt| then "" else "\n" + Unindented(k, txt[n + 1..])
  }

  /** A text with one newline at its end, if it is not empty. */
  function Closed(txt: string): string {
    if txt == "" || txt[|txt| - 1] == '\n' then txt else txt + "\n"
  }

  lemma LineEndIs(txt: string, n: nat)
    requires n < |txt| && txt[n] == '\n' && '\n' !in txt[..n]
    ensures LineEnd(txt) == n
  {}

  lemma {:induction false} SpacesAre(n: nat)
    ensures |Spaces(n)| == n && forall i :: 0 <= i < n ==> Spaces(n)[i] == ' '
    decreases n
  {
    if n > 0 {
      SpacesAre(n - 1);
    }
  }

  lemma IndentedAt(pad: string, s: string, n: nat)
    requires s != "" && n == LineEnd(s)
    ensures Indented(pad, s) == pad + s[..n] + "\n" + if n == |s| then "" else Indented(pad, s[n + 1..])
  {
    hide LineEnd;
  }

  lemma UnindentedAt(k: nat, line: string, rest: string)
    requires '\n' !in line && k <= |line|
    ensures Unindented(k, line + "\n" + rest) == line[k..] + "\n" + Unindented(k, rest)
  {
    hide LineEnd;
    var s := line + "\n" + rest;
    FirstLine(line, rest);
    assert s[k..|line|] == line[k..];
  }

  /** Taking the indentation off gives the text back, closed by one newline. */
  lemma {:induction false} UnindentUndoes(pad: string, txt: string)
    requires '\n' !in pad
    ensures Unindented(|pad|, Indented(pad, txt)) == Closed(txt)
    decreases |txt|
  {
    hide LineEnd, Unindented, Indented, Closed;
    if txt == "" {
      NothingIndented(pad);
    } else {
      var n := LineEnd(txt);
      var rest := if n == |txt| then "" else Indented(pad, txt[n + 1..]);
      IndentedAt(pad, txt, n);
      UnindentedAt(|pad|, pad + txt[..n], rest);
      assert (pad + txt[..n])[|pad|..] == txt[..n];
      if n < |txt| {
        UnindentUndoes(pad, txt[n + 1..]);
        ClosedRest(txt, n);
      } else {
        NothingIndented(pad);
        ClosedLine(txt);
      }
    }
  }

  lemma NothingIndented(pad: string)
    ensures Indented(pad, "") == "" && Unindented(|pad|, "") == "" && Closed("") == ""
  {}

  lemma ClosedLine(txt: string)
    requires txt != "" && '\n' !in txt[..|txt|]
    ensures Closed(txt) == txt[..|txt|] + "\n"
  {
    assert txt[..|txt|] == txt;
  }

  /** The lines of a text that starts with a whole line. */
  lemma FirstLine(line: string, rest: string)
    requires '\n' !in line
    ensures var s := line + "\n" + rest; LineEnd(s) == |line| && s[..|line|] == line && s[|line| + 1..] == rest
  {
    var s := line + "\n" + rest;
    assert s[..|line|] == line;
    LineEndIs(s, |line|);
  }

  lemma ClosedRest(txt: string, n: nat)
    requires n < |txt| && txt[n] == '\n'
    ensures Closed(txt) == txt[..n] + "\n" + Closed(txt[n + 1..])
  {
    assert txt == txt[..n] + "\n" + txt[n + 1..];
  }

  /** For the pad of any indentation: as many spaces as its size says, whatever its sign. */
  lemma MultilineUndone(indent: int, txt: string)
    ensures var k: nat, pad := if indent < 0 then -indent else indent, Spaces(Width(indent));
            && |pad| == k && (forall i :: 0 <= i < k ==> pad[i] == ' ')
            && Unindented(k, Indented(pad, txt)) == Closed(txt)
  {
    SpacesAre(Width(indent));
    UnindentUndoes(Spaces(Width(indent)), txt);
  }

  // ---------- the string ----------

  class Buffer {
    var str: array<char>
    var len: nat
    var allocatedSize: nat
    ghost var moved: nat

    constructor ()
      ensures Valid() && fresh(str) && Contents() == "" && Sizes() == Size(INITIAL, 0, 0)
    {
      str := new char[INITIAL];
      len, allocatedSize, moved := 0, INITIAL, 0;
      new;
      str[0] := '\0';
      assert Power(0) == 1;
    }

    ghost function Sizes(): Size
      reads this
    {
      Size(allocatedSize, len, moved)
    }

    /** Terminated inside its allocation. */
    ghost predicate Valid()
      reads this, str
    {
      len < allocatedSize == str.Length && Frugal(Sizes()) && str[len] == '\0'
    }

    ghost function Contents(): string
      requires len <= str.Length
      reads this, str
    {
      str[..len]
    }

    /** Room for need bytes: a new block with the old bytes in it. */
    method Grow(need: nat)
      requires allocatedSize == str.Length > 0
      modifies this`str, this`allocatedSize, this`moved
      ensures allocatedSize == str.Length == Want(old(allocatedSize), need)
      ensures str == old(str) || fresh(str)
      ensures str[..old(allocatedSize)] == old(str[..])
      ensures moved == old(moved) + if allocatedSize > old(allocatedSize) then old(allocatedSize) else 0
    {
      if allocatedSize >= need {
        return;
      }
      var want := allocatedSize;
      while want < need
        invariant want >= allocatedSize && Want(want, need) == Want(allocatedSize, need)
      {
        want := want * 2;
      }
      var block := new char[want];
      forall i | 0 <= i < allocatedSize {
        block[i] := str[i];
      }
      str, moved, allocatedSize := block, moved + allocatedSize, want;
    }

    /** memcpy of size bytes and a terminator. */
    method AppendBuffer(buffer: string)
      requires Valid()
      modifies this, str
      ensures Valid() && (str == old(str) || fresh(str))
      ensures Contents() == old(Contents()) + buffer && Sizes() == Appended(old(Sizes()), |buffer|)
    {
      hide Frugal, Appended;
      NoBytes(Sizes(), buffer, Contents());
      if |buffer| == 0 {
        return;
      }
      Extend(buffer);
    }

    /** What both appends do with a text that is not empty. */
    method Extend(text: string)
      requires Valid() && |text| > 0
      modifies this, str
      ensures Valid() && (str == old(str) || fresh(str))
      ensures Contents() == old(Contents()) + text && Sizes() == Appended(old(Sizes()), |text|)
    {
      hide Frugal, Want;
      AppendFrugal(Sizes(), |text|);
      Grow(len + |text| + 1);
      Store(text);
      len := len + |text|;
    }

    /** The bytes after the contents, and a terminator. */
    method Store(text: string)
      requires len + |text| < str.Length
      modifies str
      ensures str[..len + |text|] == old(str[..len]) + text && str[len + |text|] == '\0'
    {
      var at := len;
      forall i | 0 <= i < |text| {
        str[at + i] := text[i];
      }
      str[at + |text|] := '\0';
    }

    /** A formatted text: formatting that fails, or prints nothing, leaves all as it was.
        The terminator is written with the text. */
    method AppendSprintf(printed: string, failed: bool)
      requires Valid()
      modifies this, str
      ensures Valid() && (str == old(str) || fresh(str))
      ensures Contents() == old(Contents()) + (if failed then "" else printed)
      ensures Sizes() == if failed then old(Sizes()) else Appended(old(Sizes()), |printed|)
    {
      var n := if failed then -1 else |printed|;
      hide Frugal, Appended;
      NoBytes(Sizes(), printed, Contents());
      if n > 0 {
        Extend(printed);
      }
    }

    /** One line of a block, as the three appends leave it. */
    method AppendLine(blanks: string, line: string)
      requires Valid()
      modifies this, str
      ensures Valid() && (str == old(str) || fresh(str))
      ensures Contents() == old(Contents()) + (blanks + line + "\n")
    {
      hide Frugal, Appended;
      ghost var before := Contents();
      AppendSprintf(blanks, false);
      AppendBuffer(line);
      Regroup(before, blanks, line);
      AppendSprintf("\n", false);
      Regroup(before, blanks + line, "\n");
    }

    /** A block of text with every line indented. */
    method MultilineText(indent: int, txt: string)
      requires Valid() && '\0' !in txt
      modifies this, str
      ensures Valid() && (str == old(str) || fresh(str))
      ensures Contents() == old(Contents()) + Indented(Spaces(Width(indent)), txt)
    {
      hide Indented, Frugal, Appended, Spaces;
      var p := 0;
      ghost var pad, before := Spaces(Width(indent)), Contents();
      ghost var done := "";
      while p < |txt|
        invariant p <= |txt| && Valid() && (str == old(str) || fresh(str))
        invariant Contents() == before + done
        invariant done + Indented(pad, txt[p..]) == Indented(pad, txt)
        decreases |txt| - p
      {
        var n := LineEnd(txt[p..]);
        IndentedStep(pad, txt, p, n);
        var blanks := Spaces(Width(indent));
        AppendLine(blanks, txt[p..p + n]);
        Regroup(before, done, blanks + txt[p..p + n] + "\n");
        done := done + (pad + txt[p..p + n] + "\n");
        if p + n == |txt| {
          NothingIndented(pad);
          p := |txt|;
          break;
        }
        p := p + n + 1;
      }
      NothingIndented(pad);
      assert txt[|txt|..] == "";
    }
  }

  lemma Regroup(a: string, b: string, c: string)
    ensures a + b + c == a + (b + c)
  {}

  lemma NoBytes(s: Size, text: string, contents: string)
    requires s.cap > 0
    ensures |text| == 0 ==> contents + text == contents && Appended(s, |text|) == s
    ensures contents + "" == contents
  {}

  lemma IndentedStep(pad: string, txt: string, p: nat, n: nat)
    requires p < |txt| && n == LineEnd(txt[p..])
    ensures p + n < |txt| ==>
              Indented(pad, txt[p..]) == pad + txt[p..p + n] + "\n" + Indented(pad, txt[p + n + 1..])
    ensures p + n == |txt| ==> Indented(pad, txt[p..]) == pad + txt[p..p + n] + "\n"
  {
    hide LineEnd, Indented;
    var s := txt[p..];
    IndentedAt(pad, s, n);
    assert s[..n] == txt[p..p + n];
    if p + n < |txt| {
      assert s[n + 1..] == txt[p + n + 1..];
    }
  }
}
