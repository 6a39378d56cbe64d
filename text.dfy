// Text helpers shared by the serialisers: splitting at a character,
// joining, and reading decimal integers back.

module Text {
  import opened Util

  /** The first position of `c` in `t`, or -1. */
  function FirstIndex(t: string, c: char): (i: int)
    ensures -1 <= i < |t|
    ensures i == -1 <==> c !in t
    ensures i >= 0 ==> t[i] == c && c !in t[..i]
  {
    if t == [] then -1
    else if t[0] == c then 0
    else
      var j := FirstIndex(t[1..], c);
      assert c !in t[1..] ==> c !in t by {
        if c !in t[1..] { assert t == [t[0]] + t[1..]; }
      }
      if j == -1 then -1
      else
        assert t[..j + 1] == [t[0]] + t[1..][..j];
        j + 1
  }

  /** The pieces of `t` between occurrences of `c`. */
  function Split(t: string, c: char): (parts: seq<string>)
    ensures |parts| >= 1
    decreases |t|
  {
    var i := FirstIndex(t, c);
    if i == -1 then [t] else [t[..i]] + Split(t[i + 1..], c)
  }

  /** Each string with `pad` in front. */
  function Padded(parts: seq<string>, pad: string): (r: seq<string>)
    ensures |r| == |parts|
  {
    if parts == [] then [] else [pad + parts[0]] + Padded(parts[1..], pad)
  }

  predicate Free(parts: seq<string>, c: char)
  {
    forall i :: 0 <= i < |parts| ==> c !in parts[i]
  }

  /** A position holding `c` with no `c` before it is the first position of `c`. */
  lemma FirstIndexAt(u: string, c: char, k: int)
    requires 0 <= k < |u| && u[k] == c && c !in u[..k]
    ensures FirstIndex(u, c) == k
  {
  }

  /** Text free of `c` in front of `t` shifts the first `c` of `t` by its length. */
  lemma FirstIndexBehind(pad: string, t: string, c: char)
    requires c !in pad
    ensures FirstIndex(t, c) == -1 ==> FirstIndex(pad + t, c) == -1
    ensures FirstIndex(t, c) >= 0 ==> FirstIndex(pad + t, c) == |pad| + FirstIndex(t, c)
  {
    var i := FirstIndex(t, c);
    var u := pad + t;
    if i == -1 {
      assert c !in u;
    } else {
      assert u[..|pad| + i] == pad + t[..i];
      assert c !in pad + t[..i];
      assert u[|pad| + i] == t[i];
      FirstIndexAt(u, c, |pad| + i);
    }
  }

  /** A piece free of `c` with text in front: the split of the whole starts with the two joined. */
  lemma SplitPrefix(pad: string, t: string, c: char)
    requires c !in pad
    ensures Split(pad + t, c) == [pad + Split(t, c)[0]] + Split(t, c)[1..]
  {
    FirstIndexBehind(pad, t, c);
    var i := FirstIndex(t, c);
    if i == -1 {
      SplitWhole(pad + t, c);
      SplitWhole(t, c);
    } else {
      SplitPrefixAt(pad, t, c, i);
    }
  }

  lemma SplitWhole(u: string, c: char)
    requires FirstIndex(u, c) == -1
    ensures Split(u, c) == [u]
  {
  }

  lemma SplitAt(u: string, c: char, k: int, head: string, tail: string)
    requires 0 <= k == FirstIndex(u, c) && head == u[..k] && tail == u[k + 1..]
    ensures Split(u, c) == [head] + Split(tail, c)
  {
  }

  lemma SplitPrefixAt(pad: string, t: string, c: char, i: int)
    requires 0 <= i == FirstIndex(t, c) && FirstIndex(pad + t, c) == |pad| + i
    ensures Split(pad + t, c) == [pad + Split(t, c)[0]] + Split(t, c)[1..]
  {
    var u := pad + t;
    SplitAt(t, c, i, t[..i], t[i + 1..]);
    assert u[..|pad| + i] == pad + t[..i];
    assert u[|pad| + i + 1..] == t[i + 1..];
    SplitAt(u, c, |pad| + i, pad + t[..i], t[i + 1..]);
  }

  /** Splitting text joined with `c` and a pad gives the parts back, the later ones behind the pad. */
  lemma {:induction false} SplitJoin(parts: seq<string>, c: char, pad: string)
    requires |parts| >= 1 && Free(parts, c) && c !in pad
    ensures Split(Join(parts, [c] + pad), c) == [parts[0]] + Padded(parts[1..], pad)
  {
    var sep := [c] + pad;
    if |parts| == 1 {
      assert FirstIndex(parts[0], c) == -1;
    } else {
      var rest := Join(parts[1..], sep);
      var t := parts[0] + sep + rest;
      assert FirstIndex(t, c) == |parts[0]| by {
        assert t[|parts[0]|] == c;
        assert t[..|parts[0]|] == parts[0];
      }
      assert t[|parts[0]| + 1..] == pad + rest;
      SplitJoin(parts[1..], c, pad);
      SplitPrefix(pad, rest, c);
      assert parts[1..][1..] == parts[2..];
    }
  }

  /** Java's reading of a decimal integer, optionally negative. */
  function ParseInt(s: string): (r: Option<int>)
  {
    if s == [] then None
    else if s[0] == '-' then
      if |s| > 1 && AllDigits(s[1..]) then Some(0 - DigitsValue(s[1..]) as int) else None
    else if AllDigits(s) then Some(DigitsValue(s)) else None
  }

  lemma ParseIntToString(x: int)
    ensures ParseInt(IntToString(x)) == Some(x)
  {
    if x < 0 {
      ParseNegative(-x);
    } else {
      ParseNatural(x);
    }
  }

  lemma ParseNegative(n: nat)
    requires n > 0
    ensures ParseInt("-" + NatToString(n)) == Some(-(n as int))
  {
    DigitsOfNat(n);
    var s := "-" + NatToString(n);
    assert s[0] == '-' && s[1..] == NatToString(n);
  }

  lemma ParseNatural(n: nat)
    ensures ParseInt(NatToString(n)) == Some(n)
  {
    DigitsOfNat(n);
    assert NatToString(n)[0] != '-';
  }

  /** The pieces after the first, each with its leading blank removed; None if one lacks it. */
  function Unpadded(pieces: seq<string>): Option<seq<string>>
  {
    if pieces == [] then Some([])
    else if pieces[0] == [] || pieces[0][0] != ' ' then None
    else match Unpadded(pieces[1..])
      case Some(rest) => Some([pieces[0][1..]] + rest)
      case None => None
  }

  lemma {:induction false} UnpaddedPadded(parts: seq<string>)
    ensures Unpadded(Padded(parts, " ")) == Some(parts)
  {
    if parts != [] {
      var p := Padded(parts, " ");
      assert p[0] == " " + parts[0];
      assert p[0][0] == ' ' && p[0][1..] == parts[0];
      assert p[1..] == Padded(parts[1..], " ");
      UnpaddedPadded(parts[1..]);
      assert [parts[0]] + parts[1..] == parts;
    }
  }

  /** Joining one more part appends the separator and the part. */
  lemma {:induction false} JoinAppend(parts: seq<string>, x: string, sep: string)
    requires |parts| >= 1
    ensures Join(parts + [x], sep) == Join(parts, sep) + sep + x
  {
    if |parts| == 1 {
      assert (parts + [x])[1..] == [x];
    } else {
      assert (parts + [x])[1..] == parts[1..] + [x];
      JoinAppend(parts[1..], x, sep);
    }
  }
}
