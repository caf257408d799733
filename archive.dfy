/** The two upstream addresses the harvest loop builds from a company's CIK: the
    submissions-history file it fetches (main.py:10, main.py:26-28) and the archive
    location of a Form 4 disclosure document it returns (main.py:59-64). */
module Archive {
  import opened Options
  import opened Decimal
  import opened Accession

  const SubmissionsBase := "https://data.sec.gov/submissions/"
  const ArchiveRoot := "https://www.sec.gov/Archives/edgar/data/"
  /** The renderer segment of the primary Form 4 document. */
  const Renderer := "xslF345X03"
  const DocSuffix := "/" + Renderer + "/doc.xml"
  /** The width a CIK is zero-padded to. */
  const CikWidth: nat := 10

  /** `str(cik).zfill(10)`, the CIK as the submissions file names it. */
  function PaddedCik(cik: nat): string {
    ZFill(Show(cik), CikWidth)
  }

  /** The padded CIK is ten digits for every CIK below ten billion (more digits for larger
      ones), and reading it back as an integer gives the CIK again. */
  lemma PaddedCikRoundTrip(cik: nat)
    ensures AllDigits(PaddedCik(cik)) && |PaddedCik(cik)| >= CikWidth
    ensures cik < Pow10(CikWidth) ==> |PaddedCik(cik)| == CikWidth
    ensures ParseDigits(PaddedCik(cik)) == cik
  {
    PaddedRoundTrip(cik, CikWidth);
    ZFillPads(Show(cik), CikWidth);
    if cik < Pow10(CikWidth) {
      ShowLength(cik, CikWidth);
    }
  }

  /** The submissions-history file of one company. */
  function SubmissionsUrl(cik: nat): string {
    SubmissionsBase + "CIK" + PaddedCik(cik) + ".json"
  }

  /** Distinct companies are looked up at distinct addresses. */
  lemma SubmissionsUrlInjective(a: nat, b: nat)
    requires SubmissionsUrl(a) == SubmissionsUrl(b)
    ensures a == b
  {
    var n := |SubmissionsBase + "CIK"|;
    var pa, pb := PaddedCik(a), PaddedCik(b);
    PaddedCikRoundTrip(a);
    PaddedCikRoundTrip(b);
    assert |pa| == |SubmissionsUrl(a)| - n - 5 == |pb|;
    assert SubmissionsUrl(a)[n..n + |pa|] == pa;
    assert SubmissionsUrl(b)[n..n + |pb|] == pb;
  }

  /** The archive location of a disclosure document: the CIK without leading zeros and the
      accession number without dashes. */
  function DocumentUrl(cik: nat, accession: string): string {
    ArchiveRoot + Show(cik) + "/" + RemoveDashes(accession) + DocSuffix
  }

  /** The position of the first `c` in `s`, or `|s|` when there is none. */
  function IndexOf(s: string, c: char): (k: nat)
    ensures k <= |s|
    ensures k < |s| ==> s[k] == c
    ensures forall i :: 0 <= i < k ==> s[i] != c
  {
    if s == [] then 0
    else if s[0] == c then 0
    else 1 + IndexOf(s[1..], c)
  }

  /** The location starts with the archive root and ends with the renderer suffix. */
  predicate HasFrame(url: string) {
    && |url| >= |ArchiveRoot| + |DocSuffix|
    && url[..|ArchiveRoot|] == ArchiveRoot
    && url[|url| - |DocSuffix|..] == DocSuffix
  }

  /** What lies between the archive root and the renderer suffix. */
  function Middle(url: string): string
    requires HasFrame(url)
  {
    url[|ArchiveRoot|..|url| - |DocSuffix|]
  }

  /** Reads `cik/segment`: a canonical CIK (no leading zero), a slash, and a segment without
      dashes. */
  function ParseMiddle(middle: string): Option<(nat, string)> {
    var k := IndexOf(middle, '/');
    if k == |middle| || !IsCanonical(middle[..k]) || '-' in middle[k + 1..] then None
    else Some((ParseDigits(middle[..k]), middle[k + 1..]))
  }

  /** Reads a document location back into its CIK and its accession segment. Only the
      strings `DocumentUrl` can produce are accepted. */
  function ParseDocumentUrl(url: string): Option<(nat, string)> {
    if HasFrame(url) then ParseMiddle(Middle(url)) else None
  }

  lemma FrameRoundTrip(middle: string)
    ensures HasFrame(ArchiveRoot + middle + DocSuffix)
    ensures Middle(ArchiveRoot + middle + DocSuffix) == middle
  {
    var url := ArchiveRoot + middle + DocSuffix;
    assert url[..|ArchiveRoot|] == ArchiveRoot;
    assert url[|url| - |DocSuffix|..] == DocSuffix;
  }

  lemma FrameSplit(url: string)
    requires HasFrame(url)
    ensures url == ArchiveRoot + Middle(url) + DocSuffix
  {
    var head, tail := |ArchiveRoot|, |url| - |DocSuffix|;
    assert url == url[..head] + url[head..tail] + url[tail..];
  }

  lemma MiddleRoundTrip(cik: nat, segment: string)
    requires '-' !in segment
    ensures ParseMiddle(Show(cik) + "/" + segment) == Some((cik, segment))
  {
    var digits := Show(cik);
    var middle := digits + "/" + segment;
    var k := IndexOf(middle, '/');
    assert middle[|digits|] == '/';
    assert k == |digits|;
    assert middle[..k] == digits;
    assert middle[k + 1..] == segment;
    ParseShow(cik);
  }

  lemma MiddleSound(middle: string, cik: nat, segment: string)
    requires ParseMiddle(middle) == Some((cik, segment))
    ensures '-' !in segment
    ensures middle == Show(cik) + "/" + segment
  {
    var k := IndexOf(middle, '/');
    var digits := middle[..k];
    ShowParse(digits);
    assert middle == middle[..k] + [middle[k]] + middle[k + 1..];
  }

  /** Every document location reads back as the CIK and the dash-free accession number it
      was built from: the CIK segment is `str(cik)` and the accession segment has no dash. */
  lemma DocumentUrlRoundTrip(cik: nat, accession: string)
    ensures ParseDocumentUrl(DocumentUrl(cik, accession)) == Some((cik, RemoveDashes(accession)))
  {
    var middle := Show(cik) + "/" + RemoveDashes(accession);
    assert DocumentUrl(cik, accession) == ArchiveRoot + middle + DocSuffix;
    FrameRoundTrip(middle);
    MiddleRoundTrip(cik, RemoveDashes(accession));
  }

  /** Conversely, whatever reads back is exactly the location of what it reads back to. */
  lemma ParseDocumentUrlSound(url: string, cik: nat, segment: string)
    requires ParseDocumentUrl(url) == Some((cik, segment))
    ensures '-' !in segment
    ensures url == DocumentUrl(cik, segment)
  {
    var middle := Middle(url);
    FrameSplit(url);
    MiddleSound(middle, cik, segment);
    DocumentUrlFrame(cik, segment);
  }

  lemma DocumentUrlFrame(cik: nat, segment: string)
    requires '-' !in segment
    ensures DocumentUrl(cik, segment) == ArchiveRoot + (Show(cik) + "/" + segment) + DocSuffix
  {
    RemoveDashesNoop(segment);
  }

  /** Two filings share a document location only when they have the same CIK and the same
      accession number up to dashes. */
  lemma DocumentUrlInjective(cik1: nat, acc1: string, cik2: nat, acc2: string)
    requires DocumentUrl(cik1, acc1) == DocumentUrl(cik2, acc2)
    ensures cik1 == cik2 && RemoveDashes(acc1) == RemoveDashes(acc2)
  {
    DocumentUrlRoundTrip(cik1, acc1);
    DocumentUrlRoundTrip(cik2, acc2);
  }
}
