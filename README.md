# Form 4 URL harvest — a Dafny model

This project models the discovery loop of the SEC Form 4 scraper, `fetch_recent_form4s_json`
in `main.py`. The loop walks every company of the SEC ticker file. For each company it reads
the submissions-history document, which is keyed by the CIK zero-padded to ten digits. It
pairs the "recent" block's three parallel lists (form type, accession number, filing date) by
position. It keeps the entries whose form is exactly `"4"` and whose filing date parses and is
at most fourteen whole days old. For each kept entry it builds the archive location

    https://www.sec.gov/Archives/edgar/data/<CIK without leading zeros>/<accession without dashes>/xslF345X03/doc.xml

It stops after the first company that leaves more than 300 locations collected.

Modules:

- `Options` (options.dfy): the optional value standing for absent JSON keys and swallowed
  exceptions.
- `Decimal` (decimal.dfy): `str(n)`, `s.zfill(w)` and `int(s)` on digit strings, and the
  round trip `int(str(n).zfill(10)) == n`.
- `Accession` (accession.dfy): `acc.replace("-", "")`, and the dashed/undashed forms of an
  accession number.
- `Archive` (archive.dfy): the submissions URL and the document URL, with a parser proved to
  invert the document URL.
- `Form4Scan` (form4_scan.dfy): the specification of the harvest as functions
  (`EntryUrls`, `CompanyUrls`, `Emitted`) and the loop itself as three imperative methods.
  `FetchRecentForm4Urls` is the company loop with the cap. `VisitCompany` is the
  fetch-and-skip part of its body. `CollectFilings` is the inner loop over the zipped filings.
  Each method is proved against the specification functions. The invariant
  `count == |urls|` is kept by each of them.

The outside world is one value, `Upstream`:

- `fetch`: the decoded document served at a submissions URL. `None` means the request or
  the JSON decoding raised.
- `parseDate`: `strptime(date, "%Y-%m-%d")` as a day number. `None` means it raised.
- `today`: the day number of `datetime.now()`. The parsed date is midnight and `.days`
  rounds down, so `(now - dt).days` is exactly `today - day`, future dates included.

## Model

| member | source | states |
|---|---|---|
| `Decimal.ParseDigits` | main.py:63 | `int(cik)` on a digit string: the decimal value, most significant digit first (definition; its properties are the round-trip lemmas below) |
| `Decimal.ZFill` | main.py:26 | `s.zfill(width)`: `s` left-filled with '0' up to `width` characters, or `s` itself when already that long (definition; characterised by `ZFillPads`) |
| `Decimal.Show` | main.py:63 | `str(n)` is a digit string with no superfluous leading zero; it starts with '0' only for zero |
| `Decimal.ParseShow` | main.py:63 | `int(str(n)) == n` |
| `Decimal.ParseLeadingZeros` | main.py:63 | leading zeros do not change what `int` reads from a digit string |
| `Decimal.ZFillPads` | main.py:26 | `zfill(w)` yields a string of length `max(len, w)` that ends with the input and is '0' before it |
| `Decimal.PaddedRoundTrip` | main.py:26 | `int(str(n).zfill(w)) == n` for every natural `n` and width `w` |
| `Decimal.ShowLength` | main.py:26 | a number below `10^k` has at most `k` digits |
| `Decimal.ShowParse` | main.py:63 | every canonical digit string is `str` of the number it denotes |
| `Decimal.ShowInjective` | main.py:63 | distinct CIKs have distinct decimal texts |
| `Accession.RemoveDashes` | main.py:59 | the dash-stripped accession contains no '-' and is no longer than the input |
| `Accession.RemoveDashesKeepsOthers` | main.py:59 | every character other than '-' occurs as often after stripping as before |
| `Accession.RemoveDashesAppend` | main.py:59 | stripping distributes over concatenation, so kept characters keep their order |
| `Accession.RemoveDashesNoop` | main.py:59 | an accession without dashes (the undashed form) is unchanged, so stripping is idempotent |
| `Accession.RemoveTwoDashes` | main.py:59 | stripping `p-q-r` with dash-free parts gives `p + q + r` |
| `Accession.DashedRoundTrip` | main.py:59 | a canonical `NNNNNNNNNN-YY-NNNNNN` accession strips to 18 digits, from which the dashed form is rebuilt |
| `Accession.UndashedRoundTrip` | main.py:59 | an 18-digit accession gets the canonical dashed form, and stripping that gives the 18 digits back |
| `Archive.PaddedCik` | main.py:26 | `str(cik).zfill(10)`, the CIK as the submissions file names it (definition; characterised by `PaddedCikRoundTrip`) |
| `Archive.PaddedCikRoundTrip` | main.py:26 | the padded CIK is all digits, at least ten long, exactly ten for CIKs below 10^10, and reads back as the CIK |
| `Archive.SubmissionsUrl` | main.py:28 | `f"{base}CIK{cik}.json"` with the padded CIK and `base` the submissions root of main.py:10 (definition; injectivity below) |
| `Archive.SubmissionsUrlInjective` | main.py:28 | distinct CIKs are looked up at distinct submissions URLs |
| `Archive.DocumentUrl` | main.py:59-64 | the archive root, `int(cik)` in decimal, '/', the accession with every dash removed, then `/xslF345X03/doc.xml` (definition; characterised by the round trip and soundness lemmas below) |
| `Archive.DocumentUrlRoundTrip` | main.py:61-64 | every document URL parses back to its CIK (no leading zeros) and its accession without dashes |
| `Archive.ParseDocumentUrlSound` | main.py:61-64 | whatever parses is exactly `ArchiveRoot + str(cik) + "/" + segment + "/xslF345X03/doc.xml"` with a dash-free segment |
| `Archive.DocumentUrlInjective` | main.py:61-64 | two filings share a document URL only if they have the same CIK and the same accession up to dashes |
| `Form4Scan.Zip3` | main.py:45 | `zip` of the three lists: its ensures: no longer than any of them and exactly as long as one of them, i.e. the shortest; the definition pairs them position by position |
| `Form4Scan.RecentBlock` | main.py:30-38 | the "recent" block when the fetch succeeded and both "filings" and "filings"."recent" are present, and nothing otherwise (definition) |
| `Form4Scan.RecentEntries` | main.py:38-45 | the zipped entries of the "recent" block, each list defaulting to `[]` as `recent.get(key, [])` does, and no entries without a block (definition) |
| `Form4Scan.InWindow` | main.py:51-57 | the date test: the date parses and today minus its day is at most 14 (definition; edges in `InWindowEdges`) |
| `Form4Scan.Selected` | main.py:47-57 | an entry is kept when its form is exactly "4" and its date passes `InWindow` (definition) |
| `Form4Scan.InWindowEdges` | main.py:51-57 | a date exactly 14 days back is kept, 15 days back is dropped, a future date is kept, an unparsable date is dropped |
| `Form4Scan.EntryUrls` | main.py:45-67 | a company yields at most one URL per zipped entry |
| `Form4Scan.EntryUrlsStep` | main.py:66-67 | `EntryUrls` unfolded at an arbitrary prefix: one more entry appends its URL when it is selected and nothing otherwise; this is the step the loop of `CollectFilings` is proved with |
| `Form4Scan.EntryUrlsMember` | main.py:45-64 | a URL is produced exactly when some entry has form exactly "4" (so "4/A" yields none) and a date that parses and is in the window, and the URL is that entry's document URL |
| `Form4Scan.CompanyUrls` | main.py:26-67 | the URLs one company contributes: `EntryUrls` of the entries fetched from its submissions URL (definition; characterised by `CompanyUrlsBound`, `CompanyUrlsOfRecent` and `CompanyUrlsMember`) |
| `Form4Scan.CompanyUrlsBound` | main.py:35-45 | a failed fetch or a missing "filings"/"recent" key yields nothing; otherwise at most the minimum of the three list lengths, a missing list counting as empty |
| `Form4Scan.CompanyUrlsOfRecent` | main.py:38-45 | with a "recent" block, the company's URLs are those of the zip of its three lists, each defaulting to empty |
| `Form4Scan.CompanyUrlsMember` | main.py:35-64 | a company contributes a URL exactly for each zipped position holding a Form 4 in the window |
| `Form4Scan.Emitted` | main.py:25-67 | the URLs of the first `k` companies concatenated in company order (definition; characterised by `EmittedPrefix` and `EmittedMember`) |
| `Form4Scan.EmittedPrefix` | main.py:66 | URLs are only appended: the first `i` companies' URLs stay, in order, at the front of the first `k` companies' URLs |
| `Form4Scan.EmittedMember` | main.py:25-67 | a URL is collected from the first `k` companies exactly when one of them contributes it |
| `Form4Scan.EveryUrlIsRecentForm4` | main.py:45-67 | every collected URL is the document URL of a walked company's Form 4 in the window, and parses back to that CIK and the accession without dashes |
| `Form4Scan.CollectFilings` | main.py:45-67 | the inner loop appends exactly the company's URLs in filing order and leaves `count == len(urls)` |
| `Form4Scan.VisitCompany` | main.py:26-45 | one company appends exactly its own URLs; it is skipped exactly when the fetch failed or "filings"/"recent" is missing |
| `Form4Scan.FetchRecentForm4Urls` | main.py:15-74 | no URLs when the ticker file fails; otherwise the URLs of the first `processed` companies in company order, every earlier company ended with at most 300, and the walk stops early only when more than 300 are collected |

## Left out

- HTTP requests and JSON decoding (main.py:15-19, main.py:30-33) are foreign I/O. The ticker
  file is an `Option<seq<nat>>` of CIKs. Each submissions document is `Upstream.fetch`,
  applied to the URL the loop builds. `None` stands for any exception. The model assumes that
  one URL gives one response during a run.
- `datetime.strptime` and `datetime.now` (main.py:53-54) are the parameters `parseDate` and
  `today`. The model takes one `today` for the whole run. Python reads the clock once per
  entry, so a run that crosses midnight can move the window partway through.
- `print` logging (main.py:8, main.py:18, main.py:73) is output only. `HEADERS` is not
  defined in `main.py` and is not part of this model.
- JSON values of the wrong type and missing ticker keys are not modelled. The lists are
  lists of strings, "filings" is either absent or a record, and every ticker entry has a
  natural-number CIK. In Python, a ticker entry without `"cik_str"` raises `KeyError` at
  main.py:26. A "filings" value that is null or a number raises at main.py:35, and one that
  is a list or a string containing "recent" raises at main.py:38. A list or string without
  "recent" is skipped at main.py:35-36 like a missing key. A non-string accession
  (`acc.replace`, main.py:59) or a null list (`zip`, main.py:45) also raises. All of these
  raise outside every `try` and end the run.
- `Decimal.ZFill`: Python's `zfill` pads after a leading sign. The model omits this because
  a CIK is a natural number and `str` of it has no sign.
- `Form4Scan.FetchRecentForm4Urls`: the number of companies walked is a ghost result. The
  source returns only the list.
- The index formats, the disclosure-document parser, the value aggregation and threshold,
  and the spreadsheet sink are not in `main.py`, so they are not part of this model.
  `main.py` keeps only the exact form `"4"`, builds one `xslF345X03` location and retries
  nothing. Amendment forms, other renderer segments and index retries are not modelled.
