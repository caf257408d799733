/** Accession numbers: the upstream id of one filing, written dashed
    (`NNNNNNNNNN-YY-NNNNNN`) or undashed. The harvest loop strips the dashes
    before putting the number into an archive path (main.py:59). */
module Accession {
  import opened Decimal

  /** `s.replace("-", "")`: `s` with every '-' removed and every other character kept,
      in order. */
  function RemoveDashes(s: string): (r: string)
    ensures '-' !in r
    ensures |r| <= |s|
  {
    if s == [] then []
    else
      assert s == [s[0]] + s[1..];
      (if s[0] == '-' then [] else [s[0]]) + RemoveDashes(s[1..])
  }

  /** Every character other than '-' occurs in the result exactly as often as in the input. */
  lemma {:induction false} RemoveDashesKeepsOthers(s: string, c: char)
    requires c != '-'
    ensures multiset(RemoveDashes(s))[c] == multiset(s)[c]
    decreases |s|
  {
    if s != [] {
      assert s == [s[0]] + s[1..];
      RemoveDashesKeepsOthers(s[1..], c);
    }
  }

  /** Removing dashes distributes over concatenation, so it keeps the order of the
      characters it keeps. */
  lemma {:induction false} RemoveDashesAppend(a: string, b: string)
    ensures RemoveDashes(a + b) == RemoveDashes(a) + RemoveDashes(b)
    decreases |a|
  {
    if a != [] {
      assert (a + b)[1..] == a[1..] + b;
      RemoveDashesAppend(a[1..], b);
    } else {
      assert a + b == b;
    }
  }

  /** An accession number that has no dash (the undashed form) passes through unchanged;
      in particular removing dashes is idempotent. */
  lemma {:induction false} RemoveDashesNoop(s: string)
    requires '-' !in s
    ensures RemoveDashes(s) == s
    decreases |s|
  {
    if s != [] {
      assert s[0] in s;
      assert forall c :: c in s[1..] ==> c in s;
      RemoveDashesNoop(s[1..]);
    }
  }

  /** The canonical dashed form: ten digits (the filer agent), '-', two digits (the year),
      '-', six digits (the sequence number). */
  predicate IsDashedAccession(a: string) {
    && |a| == 20
    && AllDigits(a[..10]) && a[10] == '-'
    && AllDigits(a[11..13]) && a[13] == '-'
    && AllDigits(a[14..])
  }

  /** The dashed form of an 18-digit undashed accession number. */
  function AddDashes(u: string): string
    requires |u| == 18
  {
    u[..10] + "-" + u[10..12] + "-" + u[12..]
  }

  lemma DigitsHaveNoDash(s: string)
    requires AllDigits(s)
    ensures '-' !in s
  {
  }

  /** Removing the two dashes of `p-q-r` joins the three dash-free parts. */
  lemma RemoveTwoDashes(p: string, q: string, r: string)
    requires '-' !in p && '-' !in q && '-' !in r
    ensures RemoveDashes(p + "-" + q + "-" + r) == p + q + r
  {
    var dash := "-";
    assert RemoveDashes(dash) == [];
    var pd := p + dash;
    RemoveDashesAppend(p, dash);
    RemoveDashesNoop(p);
    assert RemoveDashes(pd) == p;
    var pdq := pd + q;
    RemoveDashesAppend(pd, q);
    RemoveDashesNoop(q);
    assert RemoveDashes(pdq) == p + q;
    var pdqd := pdq + dash;
    RemoveDashesAppend(pdq, dash);
    assert RemoveDashes(pdqd) == p + q;
    RemoveDashesAppend(pdqd, r);
    RemoveDashesNoop(r);
    assert RemoveDashes(pdqd + r) == p + q + r;
  }

  /** Dashed to undashed and back: removing the dashes of a canonical accession number gives
      its 18 digits, from which the dashed form is recovered. */
  lemma DashedRoundTrip(a: string)
    requires IsDashedAccession(a)
    ensures |RemoveDashes(a)| == 18 && AllDigits(RemoveDashes(a))
    ensures AddDashes(RemoveDashes(a)) == a
  {
    var p, q, r := a[..10], a[11..13], a[14..];
    assert a == p + "-" + q + "-" + r;
    DigitsHaveNoDash(p);
    DigitsHaveNoDash(q);
    DigitsHaveNoDash(r);
    RemoveTwoDashes(p, q, r);
    var u := p + q + r;
    assert u[..10] == p && u[10..12] == q && u[12..] == r;
  }

  /** Undashed to dashed and back: an 18-digit number gets the canonical dashed form, whose
      dashes the harvest loop removes again. */
  lemma UndashedRoundTrip(u: string)
    requires |u| == 18 && AllDigits(u)
    ensures IsDashedAccession(AddDashes(u))
    ensures RemoveDashes(AddDashes(u)) == u
  {
    var p, q, r := u[..10], u[10..12], u[12..];
    var a := AddDashes(u);
    assert a == p + "-" + q + "-" + r;
    assert a[..10] == p && a[11..13] == q && a[14..] == r;
    DigitsHaveNoDash(p);
    DigitsHaveNoDash(q);
    DigitsHaveNoDash(r);
    RemoveTwoDashes(p, q, r);
    assert u == p + q + r;
  }
}
