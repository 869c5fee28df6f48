/**
 Which texts are resource names and which are IPv4 literals, octet by octet (`is_resource_name` and the parse in
 `resource_ipv4`, client/src/name_map.rs): nothing here splits a text into labels.
 */
module Texts {
  import opened Common
  import opened Names

  // ---- resource names ----

  predicate IsBorder(c: Octet) { c == DOT || c == HYPHEN }

  /** Lowercase letters, digits, hyphens and dots. */
  ghost predicate Spelled(s: Bytes)
  {
    forall i :: 0 <= i < |s| ==> 97 <= s[i] <= 122 || 48 <= s[i] <= 57 || s[i] == 45 || s[i] == 46
  }

  /** No dot or hyphen at either end, nor next to a dot. */
  ghost predicate Spaced(s: Bytes)
  {
    && s != [] && !IsBorder(s[0]) && !IsBorder(s[|s| - 1])
    && forall i :: 0 < i < |s| - 1 && s[i] == DOT ==> !IsBorder(s[i - 1]) && !IsBorder(s[i + 1])
  }

  /** Never more than 63 octets without a dot. */
  ghost predicate Short(s: Bytes)
  {
    forall i :: 0 <= i && i + 64 <= |s| ==> DotSoon(s, i)
  }

  ghost predicate DotSoon(s: Bytes, i: nat)
    requires i + 64 <= |s|
  {
    exists k :: i <= k < i + 64 && s[k] == DOT
  }

  /** A letter with no dot after it. */
  ghost predicate LetterAtEnd(s: Bytes)
  {
    exists i :: 0 <= i < |s| && 97 <= s[i] <= 122 && forall j :: i < j < |s| ==> s[j] != DOT
  }

  ghost predicate Labelled(s: Bytes) { Spelled(s) && Spaced(s) && Short(s) }

  ghost predicate AllLabels(ls: seq<Bytes>) { forall i :: 0 <= i < |ls| ==> IsLabel(ls[i]) }

  lemma {:induction false} OneLabel(l: Bytes)
    requires DOT !in l
    ensures Labelled(l) <==> IsLabel(l)
  {
    if |l| >= 64 { assert !DotSoon(l, 0) && !Short(l); }
  }

  lemma {:induction false} SpelledCons(l: Bytes, rest: Bytes)
    requires DOT !in l
    ensures Spelled(l + [DOT] + rest) <==> Spelled(l) && Spelled(rest)
  {
    var s := l + [DOT] + rest;
    if Spelled(s) {
      forall i | 0 <= i < |l| ensures 97 <= l[i] <= 122 || 48 <= l[i] <= 57 || l[i] == 45 || l[i] == 46 {
        assert s[i] == l[i];
      }
      forall i | 0 <= i < |rest|
        ensures 97 <= rest[i] <= 122 || 48 <= rest[i] <= 57 || rest[i] == 45 || rest[i] == 46
      {
        assert s[|l| + 1 + i] == rest[i];
      }
    }
  }

  lemma {:induction false} SpacedCons(l: Bytes, rest: Bytes)
    requires DOT !in l && l != [] && rest != []
    ensures Spaced(l + [DOT] + rest) <==> Spaced(l) && Spaced(rest)
  {
    var s, n := l + [DOT] + rest, |l| + 1;
    assert forall i :: 0 <= i < |l| ==> s[i] == l[i];
    assert forall i :: n <= i < |s| ==> s[i] == rest[i - n];
    if Spaced(s) {
      assert s[|l|] == DOT && s[|l| - 1] == l[|l| - 1] && s[|l| + 1] == rest[0];
      forall i | 0 < i < |rest| - 1 && rest[i] == DOT ensures !IsBorder(rest[i - 1]) && !IsBorder(rest[i + 1]) {
        assert s[n + i] == DOT && s[n + i - 1] == rest[i - 1] && s[n + i + 1] == rest[i + 1];
      }
    }
  }

  lemma {:induction false} EmptyEnds(l: Bytes, rest: Bytes)
    requires Spaced(l + [DOT] + rest)
    ensures l != [] && rest != []
  {
    var s := l + [DOT] + rest;
    assert s[0] == (if l == [] then DOT else l[0]);
    assert s[|s| - 1] == (if rest == [] then DOT else rest[|rest| - 1]);
  }

  lemma {:induction false} ShortCons(l: Bytes, rest: Bytes)
    requires DOT !in l
    ensures Short(l + [DOT] + rest) <==> |l| <= 63 && Short(rest)
  {
    var s, n := l + [DOT] + rest, |l| + 1;
    assert forall i :: 0 <= i < |l| ==> s[i] == l[i];
    assert forall i :: n <= i < |s| ==> s[i] == rest[i - n];
    if |l| >= 64 { assert !DotSoon(s, 0) && !Short(s); }
    if Short(s) {
      forall i | 0 <= i && i + 64 <= |rest| ensures DotSoon(rest, i) {
        assert DotSoon(s, n + i);
        var k :| n + i <= k < n + i + 64 && s[k] == DOT;
        assert rest[k - n] == DOT;
      }
    }
    if |l| <= 63 && Short(rest) {
      forall i | 0 <= i && i + 64 <= |s| ensures DotSoon(s, i) {
        if i <= |l| {
          assert s[|l|] == DOT;
        } else {
          assert DotSoon(rest, i - n);
          var k :| i - n <= k < i - n + 64 && rest[k] == DOT;
          assert s[n + k] == DOT;
        }
      }
    }
  }

  lemma {:induction false} LabelledCons(l: Bytes, rest: Bytes)
    requires DOT !in l
    ensures Labelled(l + [DOT] + rest) <==> IsLabel(l) && Labelled(rest)
  {
    OneLabel(l);
    SpelledCons(l, rest);
    ShortCons(l, rest);
    if Spaced(l + [DOT] + rest) { EmptyEnds(l, rest); }
    if l != [] && rest != [] { SpacedCons(l, rest); }
    if l != [] && |l| <= 63 { assert Short(l); }
  }

  lemma {:induction false} LabelledJoin(ls: seq<Bytes>)
    requires ls != [] && forall i :: 0 <= i < |ls| ==> DOT !in ls[i]
    ensures Labelled(Join(ls)) <==> AllLabels(ls)
  {
    if |ls| == 1 {
      OneLabel(ls[0]);
    } else {
      LabelledJoin(ls[1..]);
      LabelledCons(ls[0], Join(ls[1..]));
      assert ls == [ls[0]] + ls[1..];
    }
  }

  ghost predicate HasLetter(l: Bytes) { exists i :: 0 <= i < |l| && IsLower(l[i]) }

  lemma {:induction false} LetterCons(l: Bytes, rest: Bytes)
    ensures LetterAtEnd(l + [DOT] + rest) <==> LetterAtEnd(rest)
  {
    var s, n := l + [DOT] + rest, |l| + 1;
    assert s[|l|] == DOT && forall i :: n <= i < |s| ==> s[i] == rest[i - n];
    if LetterAtEnd(s) {
      var i :| 0 <= i < |s| && 97 <= s[i] <= 122 && forall j :: i < j < |s| ==> s[j] != DOT;
      assert i >= n && rest[i - n] == s[i];
      forall j | i - n < j < |rest| ensures rest[j] != DOT { assert s[n + j] == rest[j]; }
    }
    if LetterAtEnd(rest) {
      var i :| 0 <= i < |rest| && 97 <= rest[i] <= 122 && forall j :: i < j < |rest| ==> rest[j] != DOT;
      assert s[n + i] == rest[i];
    }
  }

  lemma {:induction false} LetterJoin(ls: seq<Bytes>)
    requires ls != [] && forall i :: 0 <= i < |ls| ==> DOT !in ls[i]
    ensures LetterAtEnd(Join(ls)) <==> HasLetter(ls[|ls| - 1])
    ensures DOT in Join(ls) <==> |ls| >= 2
  {
    if |ls| > 1 {
      LetterJoin(ls[1..]);
      LetterCons(ls[0], Join(ls[1..]));
      assert (ls[0] + [DOT] + Join(ls[1..]))[|ls[0]|] == DOT;
    }
  }

  /** A label with a letter in it is no part of an address. */
  lemma {:induction false} LetterIsNoAddress(s: Bytes)
    requires HasLetter(Split(s)[|Split(s)| - 1])
    ensures ParseIpv4(s).None?
  {
    var l := Split(s);
    if |l| == 4 {
      var i :| 0 <= i < |l[3]| && IsLower(l[3][i]);
      assert !IsDigit(l[3][i]);
    }
  }

  /**
   A text is a resource name exactly if it has at most 253 octets, all of them lowercase letters, digits, hyphens
   and dots; neither end of it nor of any part between dots is a hyphen or empty; no part is longer than 63; there is a
   dot, and a letter after the last one.
   */
  lemma {:induction false} NameIff(s: Bytes)
    ensures IsResourceName(s) <==> |s| <= 253 && Spelled(s) && Spaced(s) && Short(s) && 46 in s && LetterAtEnd(s)
  {
    JoinSplit(s);
    var l := Split(s);
    LabelledJoin(l);
    LetterJoin(l);
    if HasLetter(l[|l| - 1]) { LetterIsNoAddress(s); }
  }

  // ---- IPv4 literals ----

  lemma {:induction false} OctetPrints(l: Bytes)
    requires ParseOctet(l).Some?
    ensures PrintOctet(ParseOctet(l).value) == l
  {
    assert forall i :: 0 <= i < |l| ==> IsDigit(l[i]);
    if |l| == 1 {
      assert l == [l[0]];
    } else if |l| == 2 {
      TwoDigits(l[0] - 48, l[1] - 48);
      assert l == [l[0], l[1]];
    } else {
      ThreeDigits(l[0] - 48, l[1] - 48, l[2] - 48);
      assert l == [l[0], l[1], l[2]];
    }
  }

  lemma {:induction false} TwoDigits(a: int, b: int)
    requires 1 <= a < 10 && 0 <= b < 10
    ensures 10 <= a * 10 + b < 100 && (a * 10 + b) / 10 == a && (a * 10 + b) % 10 == b
  {
  }

  lemma {:induction false} ThreeDigits(a: int, b: int, c: int)
    requires 1 <= a < 10 && 0 <= b < 10 && 0 <= c < 10
    ensures var v := a * 100 + b * 10 + c; v >= 100 && v / 100 == a && v / 10 % 10 == b && v % 10 == c
  {
  }

  /** A text is read as an address exactly if it is how that address is printed: no leading zeros, no other form. */
  lemma {:induction false} LiteralIff(s: Bytes, ip: Ipv4)
    ensures ParseIpv4(s) == Some(ip) <==> s == PrintIpv4(ip)
  {
    PrintIpv4Parses(ip);
    if ParseIpv4(s) == Some(ip) {
      var l := Split(s);
      OctetPrints(l[0]);
      OctetPrints(l[1]);
      OctetPrints(l[2]);
      OctetPrints(l[3]);
      OctetsOf(ParseOctet(l[0]).value, ParseOctet(l[1]).value, ParseOctet(l[2]).value, ParseOctet(l[3]).value);
      JoinSplit(s);
      assert l == [l[0], l[1], l[2], l[3]];
    }
  }
}
