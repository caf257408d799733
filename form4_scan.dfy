/** The Form 4 harvest of `fetch_recent_form4s_json` (main.py:21-74): walk the company list,
    read each company's recent filings, keep the Form 4s filed in the last fourteen days and
    collect the archive location of each, stopping once more than 300 have been collected.
    The network, the date parser and the clock are the `Upstream` the loop is run against. */
module Form4Scan {
  import opened Options
  import opened Decimal
  import opened Accession
  import opened Archive

  /** The only form type kept; amendments such as "4/A" are other strings. */
  const Form4 := "4"
  /** How many whole days before today a filing may be dated and still be kept. */
  const WindowDays := 14
  /** Once a company leaves more than this many locations collected, the walk stops. */
  const MaxUrls := 300

  /** `data["filings"]["recent"]`: three parallel lists, each possibly absent. */
  datatype Recent = Recent(
    form: Option<seq<string>>,
    accessionNumber: Option<seq<string>>,
    filingDate: Option<seq<string>>)

  /** `data["filings"]`, whose "recent" key may be absent. */
  datatype Filings = Filings(recent: Option<Recent>)

  /** A decoded submissions-history document, whose "filings" key may be absent. */
  datatype Submissions = Submissions(filings: Option<Filings>)

  /** One position of the three zipped lists. */
  datatype Entry = Entry(form: string, accessionNumber: string, filingDate: string)

  /** What the loop reads from outside: the decoded document served at a submissions URL
      (None when the request or the JSON decoding fails), the date parser (None when
      `strptime` raises, otherwise the day number of the date) and today's day number. */
  datatype Upstream = Upstream(
    fetch: string -> Option<Submissions>,
    parseDate: string -> Option<int>,
    today: int)

  function Min(a: int, b: int): int {
    if a <= b then a else b
  }

  /** Python's `zip` of three lists: pairs them position by position, stopping at the
      shortest. */
  function Zip3(forms: seq<string>, accessions: seq<string>, dates: seq<string>): (z: seq<Entry>)
    ensures |z| <= |forms| && |z| <= |accessions| && |z| <= |dates|
    ensures |z| == |forms| || |z| == |accessions| || |z| == |dates|
  {
    var n := Min(Min(|forms|, |accessions|), |dates|);
    seq(n, j requires 0 <= j < n => Entry(forms[j], accessions[j], dates[j]))
  }

  /** The "recent" block of a fetched document, if the fetch succeeded and both keys exist. */
  function RecentBlock(data: Option<Submissions>): Option<Recent> {
    if data.Some? && data.value.filings.Some? then data.value.filings.value.recent else None
  }

  /** The zipped recent filings of a fetched document; a missing list counts as empty. */
  function RecentEntries(data: Option<Submissions>): seq<Entry> {
    match RecentBlock(data)
    case None => []
    case Some(r) => Zip3(r.form.GetOr([]), r.accessionNumber.GetOr([]), r.filingDate.GetOr([]))
  }

  /** The date test: the filing date parses and lies at most `WindowDays` whole days before
      today (a future date lies a negative number of days before it). */
  predicate InWindow(filed: Option<int>, today: int) {
    filed.Some? && today - filed.value <= WindowDays
  }

  /** The window's edges: a filing dated exactly fourteen days back is kept, one dated
      fifteen days back is not, and a future date is kept; an unparsable date never is. */
  lemma InWindowEdges(today: int, ahead: nat)
    ensures InWindow(Some(today - WindowDays), today)
    ensures !InWindow(Some(today - WindowDays - 1), today)
    ensures InWindow(Some(today + ahead), today)
    ensures !InWindow(None, today)
  {
  }

  /** The entries the loop turns into a location. */
  predicate Selected(up: Upstream, e: Entry) {
    e.form == Form4 && InWindow(up.parseDate(e.filingDate), up.today)
  }

  /** The locations the loop appends for a company's entries, in entry order. */
  function EntryUrls(up: Upstream, cik: nat, es: seq<Entry>): (urls: seq<string>)
    ensures |urls| <= |es|
  {
    if es == [] then []
    else
      var last := es[|es| - 1];
      EntryUrls(up, cik, es[..|es| - 1])
        + (if Selected(up, last) then [DocumentUrl(cik, last.accessionNumber)] else [])
  }

  /** Handling one more entry appends its location when it is selected, and nothing
      otherwise. */
  lemma EntryUrlsStep(up: Upstream, cik: nat, es: seq<Entry>, j: nat)
    requires j < |es|
    ensures EntryUrls(up, cik, es[..j + 1])
      == EntryUrls(up, cik, es[..j]) + (if Selected(up, es[j]) then [DocumentUrl(cik, es[j].accessionNumber)] else [])
  {
    assert es[..j + 1][..j] == es[..j];
  }

  /** The zipped recent filings of one company, as fetched from its submissions file. */
  function CompanyEntries(up: Upstream, cik: nat): seq<Entry> {
    RecentEntries(up.fetch(SubmissionsUrl(cik)))
  }

  /** The locations one company contributes. */
  function CompanyUrls(up: Upstream, cik: nat): seq<string> {
    EntryUrls(up, cik, CompanyEntries(up, cik))
  }

  /** A company whose fetch failed, or whose document lacks "filings" or
      "filings"."recent", contributes nothing; otherwise at most one location per position of
      the shortest of its three lists, an absent list counting as empty. */
  lemma CompanyUrlsBound(up: Upstream, cik: nat)
    ensures var r := RecentBlock(up.fetch(SubmissionsUrl(cik)));
      && (r.None? ==> CompanyUrls(up, cik) == [])
      && (r.Some? ==>
            |CompanyUrls(up, cik)| <= Min(Min(|r.value.form.GetOr([])|, |r.value.accessionNumber.GetOr([])|),
                                          |r.value.filingDate.GetOr([])|))
  {
  }

  /** When the "recent" block is there, a company contributes the locations of its zipped
      lists, a missing list counting as empty. */
  lemma CompanyUrlsOfRecent(up: Upstream, cik: nat, r: Recent)
    requires RecentBlock(up.fetch(SubmissionsUrl(cik))) == Some(r)
    ensures CompanyUrls(up, cik)
      == EntryUrls(up, cik, Zip3(r.form.GetOr([]), r.accessionNumber.GetOr([]), r.filingDate.GetOr([])))
  {
  }

  /** The locations of every company of the list, one list per company, in list order. */
  function Contributions(up: Upstream, ciks: seq<nat>): (parts: seq<seq<string>>)
    ensures |parts| == |ciks|
  {
    seq(|ciks|, i requires 0 <= i < |ciks| => CompanyUrls(up, ciks[i]))
  }

  /** The lists of `parts` one after the other. */
  function Concat(parts: seq<seq<string>>): seq<string> {
    if parts == [] then [] else Concat(parts[..|parts| - 1]) + parts[|parts| - 1]
  }

  /** All locations collected from the first `k` companies, company after company. */
  function Emitted(up: Upstream, ciks: seq<nat>, k: nat): seq<string>
    requires k <= |ciks|
  {
    Concat(Contributions(up, ciks)[..k])
  }

  /** `url` is the location of the `j`-th entry of `es`, which is a Form 4 in the window. */
  predicate Justifies(up: Upstream, cik: nat, es: seq<Entry>, j: int, url: string) {
    0 <= j < |es| && Selected(up, es[j]) && url == DocumentUrl(cik, es[j].accessionNumber)
  }

  /** A location is produced for a company's entries exactly when some entry is a Form 4
      (the exact string "4") whose date parses and is at most fourteen days old, and the
      location is that entry's `DocumentUrl`. */
  lemma {:induction false} EntryUrlsMember(up: Upstream, cik: nat, es: seq<Entry>, url: string)
    ensures url in EntryUrls(up, cik, es) <==> exists j :: Justifies(up, cik, es, j, url)
    decreases |es|
  {
    if es != [] {
      var n := |es| - 1;
      var init := es[..n];
      EntryUrlsMember(up, cik, init, url);
      if url in EntryUrls(up, cik, es) {
        if url in EntryUrls(up, cik, init) {
          var j :| Justifies(up, cik, init, j, url);
          assert Justifies(up, cik, es, j, url);
        } else {
          assert Justifies(up, cik, es, n, url);
        }
      }
      if j :| Justifies(up, cik, es, j, url) {
        if j < n {
          assert Justifies(up, cik, init, j, url);
        }
      }
    }
  }

  /** A company contributes a location exactly for each position `j` of its zipped recent
      filings where the form is "4" and the date is in the window. */
  lemma CompanyUrlsMember(up: Upstream, cik: nat, url: string)
    ensures url in CompanyUrls(up, cik) <==> exists j :: Justifies(up, cik, CompanyEntries(up, cik), j, url)
  {
    EntryUrlsMember(up, cik, CompanyEntries(up, cik), url);
  }

  /** Concatenating one more list appends it. */
  lemma ConcatSnoc(parts: seq<seq<string>>, k: nat)
    requires k < |parts|
    ensures Concat(parts[..k + 1]) == Concat(parts[..k]) + parts[k]
  {
    assert parts[..k + 1][..k] == parts[..k];
  }

  /** Locations are only ever appended: what the first `i` lists give stays at the front,
      in the same order, of what the first `k` give. */
  lemma {:induction false} ConcatPrefix(parts: seq<seq<string>>, i: nat, k: nat)
    requires i <= k <= |parts|
    ensures Concat(parts[..i]) <= Concat(parts[..k])
    decreases k
  {
    if i < k {
      ConcatPrefix(parts, i, k - 1);
      ConcatSnoc(parts, k - 1);
    }
  }

  /** A string is in the concatenation of the first `k` lists exactly when it is in one of
      them. */
  lemma {:induction false} ConcatMember(parts: seq<seq<string>>, k: nat, url: string)
    requires k <= |parts|
    ensures url in Concat(parts[..k]) <==> exists i :: 0 <= i < k && url in parts[i]
    decreases k
  {
    if k > 0 {
      ConcatMember(parts, k - 1, url);
      ConcatSnoc(parts, k - 1);
    }
  }

  /** Locations are only ever appended: what the first `i` companies produced stays at the
      front, in the same order, of what the first `k` produce. */
  lemma EmittedPrefix(up: Upstream, ciks: seq<nat>, i: nat, k: nat)
    requires i <= k <= |ciks|
    ensures Emitted(up, ciks, i) <= Emitted(up, ciks, k)
  {
    ConcatPrefix(Contributions(up, ciks), i, k);
  }

  /** Each collected location comes from one of the first `k` companies, and every location
      of those companies is collected. */
  lemma EmittedMember(up: Upstream, ciks: seq<nat>, k: nat, url: string)
    requires k <= |ciks|
    ensures url in Emitted(up, ciks, k) <==> exists i :: 0 <= i < k && url in CompanyUrls(up, ciks[i])
  {
    var parts := Contributions(up, ciks);
    ConcatMember(parts, k, url);
    if url in Emitted(up, ciks, k) {
      var i :| 0 <= i < k && url in parts[i];
      assert url in CompanyUrls(up, ciks[i]);
    }
    if i :| 0 <= i < k && url in CompanyUrls(up, ciks[i]) {
      assert url in parts[i];
    }
  }

  /** Every collected location is the `DocumentUrl` of a recent Form 4 in the window, filed
      by one of the companies walked, and it reads back as that company's CIK (no leading
      zeros) and that filing's accession number with its dashes removed. */
  lemma EveryUrlIsRecentForm4(up: Upstream, ciks: seq<nat>, k: nat, url: string)
    requires k <= |ciks|
    requires url in Emitted(up, ciks, k)
    ensures exists i, j ::
              && 0 <= i < k
              && Justifies(up, ciks[i], CompanyEntries(up, ciks[i]), j, url)
              && ParseDocumentUrl(url) == Some((ciks[i], RemoveDashes(CompanyEntries(up, ciks[i])[j].accessionNumber)))
  {
    EmittedMember(up, ciks, k, url);
    var i :| 0 <= i < k && url in CompanyUrls(up, ciks[i]);
    CompanyUrlsMember(up, ciks[i], url);
    var j :| Justifies(up, ciks[i], CompanyEntries(up, ciks[i]), j, url);
    DocumentUrlRoundTrip(ciks[i], CompanyEntries(up, ciks[i])[j].accessionNumber);
  }

  /** The inner loop over one company's zipped recent filings (main.py:45-67): appends, in
      filing order, the location of every Form 4 in the window, and keeps `count` equal to the
      number of locations. `paddedCik` is the zero-padded CIK, read back with `int` for each
      location. */
  method CollectFilings(up: Upstream, paddedCik: string, forms: seq<string>, accession: seq<string>,
                        reportDates: seq<string>, urls0: seq<string>, count0: nat)
    returns (urls: seq<string>, count: nat)
    requires |paddedCik| >= 1 && AllDigits(paddedCik)
    requires count0 == |urls0|
    ensures urls == urls0 + EntryUrls(up, ParseDigits(paddedCik), Zip3(forms, accession, reportDates))
    ensures count == |urls|
  {
    urls, count := urls0, count0;
    ghost var cik := ParseDigits(paddedCik);
    ghost var es := Zip3(forms, accession, reportDates);
    var n := Min(Min(|forms|, |accession|), |reportDates|);
    var j := 0;
    while j < n
      invariant 0 <= j <= n
      invariant count == |urls|
      invariant urls == urls0 + EntryUrls(up, cik, es[..j])
    {
      EntryUrlsStep(up, cik, es, j);
      var f, acc, date := forms[j], accession[j], reportDates[j];
      assert es[j] == Entry(f, acc, date);
      if f != Form4 {
        j := j + 1;
        continue;
      }
      var dt := up.parseDate(date);
      if dt.None? || up.today - dt.value > WindowDays {
        j := j + 1;
        continue;
      }
      var accClean := RemoveDashes(acc);
      var xmlUrl := ArchiveRoot + Show(ParseDigits(paddedCik)) + "/" + accClean + DocSuffix;
      urls := urls + [xmlUrl];
      count := count + 1;
      j := j + 1;
    }
    assert es[..n] == es;
  }

  /** The body of the company loop up to the inner loop (main.py:26-45): fetch the
      company's submissions file, skip the company (`skipped`) when the fetch fails or the
      "filings"/"recent" keys are missing, and otherwise default each missing list to empty
      and run the inner loop. Either way the company's locations, and only those, are
      appended. */
  method VisitCompany(up: Upstream, cikNumber: nat, urls0: seq<string>, count0: nat)
    returns (urls: seq<string>, count: nat, skipped: bool)
    requires count0 == |urls0|
    ensures urls == urls0 + CompanyUrls(up, cikNumber)
    ensures count == |urls|
    ensures skipped <==> RecentBlock(up.fetch(SubmissionsUrl(cikNumber))).None?
  {
    var cik := PaddedCik(cikNumber);
    PaddedCikRoundTrip(cikNumber);
    var filingsUrl := SubmissionsBase + "CIK" + cik + ".json";
    var data := up.fetch(filingsUrl);
    if data.None? || data.value.filings.None? || data.value.filings.value.recent.None? {
      CompanyUrlsBound(up, cikNumber);
      assert urls0 + [] == urls0;
      return urls0, count0, true;
    }
    var recent := data.value.filings.value.recent.value;
    CompanyUrlsOfRecent(up, cikNumber, recent);
    var forms := recent.form.GetOr([]);
    var accession := recent.accessionNumber.GetOr([]);
    var reportDates := recent.filingDate.GetOr([]);
    urls, count := CollectFilings(up, cik, forms, accession, reportDates, urls0, count0);
    skipped := false;
  }

  /** The harvest loop of `fetch_recent_form4s_json`. `companyList` is the decoded ticker
      file (None when its download fails, which returns no locations). The ghost `processed`
      counts the companies walked: the locations are exactly those of the first `processed`
      companies in order, every company before the last one walked left at most `MaxUrls`
      collected, and the walk ended early only because more than `MaxUrls` were collected. */
  method FetchRecentForm4Urls(up: Upstream, companyList: Option<seq<nat>>)
    returns (urls: seq<string>, ghost processed: nat)
    ensures companyList.None? ==> urls == []
    ensures companyList.Some? ==>
      var ciks := companyList.value;
      && processed <= |ciks|
      && urls == Emitted(up, ciks, processed)
      && (forall k :: 0 <= k < processed ==> |Emitted(up, ciks, k)| <= MaxUrls)
      && (processed < |ciks| ==> |urls| > MaxUrls)
  {
    urls, processed := [], 0;
    if companyList.None? {
      return;
    }
    var ciks := companyList.value;
    ghost var parts := Contributions(up, ciks);
    var count := 0;
    var i := 0;
    ghost var safe := 0;
    while i < |ciks|
      invariant 0 <= i <= |ciks|
      invariant count == |urls|
      invariant urls == Concat(parts[..i])
      invariant count <= MaxUrls
      invariant i > 0 ==> safe == i - 1 && |Concat(parts[..safe])| <= MaxUrls
    {
      safe := i;
      ConcatSnoc(parts, i);
      assert parts[i] == CompanyUrls(up, ciks[i]);
      var skipped;
      urls, count, skipped := VisitCompany(up, ciks[i], urls, count);
      i := i + 1;
      if skipped {
        continue;
      }
      if count > MaxUrls {
        break;
      }
    }
    processed := i;
    forall k | 0 <= k < processed
      ensures |Concat(parts[..k])| <= MaxUrls
    {
      ConcatPrefix(parts, k, safe);
    }
  }
}
