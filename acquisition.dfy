/** Document acquisition (bot.py, process_pdfs): for each configured source,
    download the document to a temporary file `temp_<i>.pdf`, extract the
    text of at most its first 20 pages, keep the non-empty page texts, absorb
    any error of that source, and always delete the temporary file. The whole
    acquisition fails when no text at all was collected.

    The network download and the PDF reader are not modelled: what they do to
    one source is given as a `FetchOutcome`. */
module Acquisition {
  import opened Wrappers

  /** At most this many pages of each document are read. */
  const PageCap: nat := 20

  /** What fetching and parsing one source does, as far as the loop can see. */
  datatype FetchOutcome =
      /** The download raises (timeout, connection error): nothing is written. */
    | DownloadFails
      /** Opening or writing the temporary file raises; `created` says whether
          the file came into existence before the error. */
    | WriteFails(created: bool)
      /** The bytes are written but the reader cannot open them as a PDF. The
          HTTP status is never checked, so an error page ends here too. */
    | ParseFails
      /** The reader opens the document. `pages[j]` is the text extracted from
          page j; when `raisesAt == Some(j)`, extracting page j raises instead. */
    | Parsed(pages: seq<string>, raisesAt: Option<nat>)

  datatype Source = Source(url: string, outcome: FetchOutcome)

  /** The `ValueError` raised when no PDF yielded any text. */
  datatype AcquireError = NoPdfProcessed

  /** The pages kept from `pages`, in order: those whose text is non-empty. */
  function KeepNonEmpty(pages: seq<string>): (r: seq<string>)
    ensures |r| <= |pages|
    ensures forall t :: t in r <==> t in pages && t != ""
  {
    if pages == [] then []
    else if pages[0] == "" then KeepNonEmpty(pages[1..])
    else [pages[0]] + KeepNonEmpty(pages[1..])
  }

  /** Filtering distributes over concatenation, so it keeps the pages' order. */
  lemma {:induction false} KeepNonEmptyAppend(a: seq<string>, b: seq<string>)
    ensures KeepNonEmpty(a + b) == KeepNonEmpty(a) + KeepNonEmpty(b)
  {
    if a == [] {
      assert a + b == b;
    } else {
      assert (a + b)[1..] == a[1..] + b;
      KeepNonEmptyAppend(a[1..], b);
    }
  }

  /** How many pages of a parsed document are looked at before the page loop
      ends: the first `PageCap` pages, or fewer when extraction raises first. */
  function PagesReached(pageCount: nat, raisesAt: Option<nat>): (n: nat)
    ensures n <= pageCount && n <= PageCap
    ensures raisesAt.Some? ==> n <= raisesAt.value
    ensures n == pageCount || n == PageCap || (raisesAt.Some? && n == raisesAt.value)
  {
    var limit := if pageCount < PageCap then pageCount else PageCap;
    if raisesAt.Some? && raisesAt.value < limit then raisesAt.value else limit
  }

  /** The texts one source contributes: nothing when it fails before the
      reader opens it, otherwise the non-empty texts of the pages reached. */
  function Collected(outcome: FetchOutcome): (r: seq<string>)
    ensures |r| <= PageCap
    ensures forall t :: t in r ==> t != ""
    ensures !outcome.Parsed? ==> r == []
    ensures outcome.Parsed? ==> forall t :: t in r ==> t in outcome.pages[..PagesReached(|outcome.pages|, outcome.raisesAt)]
    ensures outcome.Parsed? ==> forall t :: t in outcome.pages[..PagesReached(|outcome.pages|, outcome.raisesAt)] && t != "" ==> t in r
  {
    match outcome
    case Parsed(pages, raisesAt) => KeepNonEmpty(pages[..PagesReached(|pages|, raisesAt)])
    case _ => []
  }

  /** A failure in the middle of a document keeps exactly the texts of the
      pages before it: they are the texts a failure-free read starts with. */
  lemma PartialDocumentKept(pages: seq<string>, k: nat)
    requires k < |pages| && k < PageCap
    ensures Collected(Parsed(pages, Some(k))) == KeepNonEmpty(pages[..k])
    ensures Collected(Parsed(pages, Some(k))) <= Collected(Parsed(pages, None))
  {
    var n := PagesReached(|pages|, None);
    assert pages[..n] == pages[..k] + pages[k..n];
    KeepNonEmptyAppend(pages[..k], pages[k..n]);
  }

  /** Every text collected from `sources`, source by source in order. */
  function AllTexts(sources: seq<Source>): (r: seq<string>)
    ensures |r| <= PageCap * |sources|
    ensures forall t :: t in r ==> t != ""
  {
    if sources == [] then [] else Collected(sources[0].outcome) + AllTexts(sources[1..])
  }

  /** Texts follow source order: the texts of a concatenation of source lists
      are the texts of the first list followed by those of the second. */
  lemma {:induction false} AllTextsAppend(a: seq<Source>, b: seq<Source>)
    ensures AllTexts(a + b) == AllTexts(a) + AllTexts(b)
  {
    if a == [] {
      assert a + b == b;
    } else {
      assert (a + b)[1..] == a[1..] + b;
      AllTextsAppend(a[1..], b);
    }
  }

  /** The texts of a single source are the texts it contributes. */
  lemma AllTextsOne(source: Source)
    ensures AllTexts([source]) == Collected(source.outcome)
  {
  }

  /** A source that yields nothing does not stop the sources after it: the
      result is what the other sources give, in their order. */
  lemma FailingSourceSkipped(before: seq<Source>, failed: Source, after: seq<Source>)
    requires Collected(failed.outcome) == []
    ensures AllTexts(before + [failed] + after) == AllTexts(before) + AllTexts(after)
  {
    AllTextsOne(failed);
    AllTextsAppend(before, [failed]);
    AllTextsAppend(before + [failed], after);
  }

  /** Nothing is collected exactly when every source contributes nothing. */
  lemma {:induction false} AllTextsEmptyIff(sources: seq<Source>)
    ensures AllTexts(sources) == [] <==> forall i :: 0 <= i < |sources| ==> Collected(sources[i].outcome) == []
  {
    if sources != [] {
      AllTextsEmptyIff(sources[1..]);
      assert forall i :: 1 <= i < |sources| ==> sources[i] == sources[1..][i - 1];
    }
  }

  /** The name of the temporary file of source `i`: "temp_<i>.pdf". */
  function TempName(i: nat): (name: string)
    ensures |name| == |Decimal(i)| + 9
    ensures name[5..|name| - 4] == Decimal(i)
  {
    "temp_" + Decimal(i) + ".pdf"
  }

  /** The decimal digits of `n`, as Python's string formatting writes them. */
  function Decimal(n: nat): (r: string)
    ensures |r| > 0
    ensures forall c :: c in r ==> '0' <= c <= '9'
  {
    if n < 10 then [DigitChar(n)] else Decimal(n / 10) + [DigitChar(n % 10)]
  }

  function DigitChar(d: nat): (c: char)
    requires d < 10
    ensures '0' <= c <= '9' && DigitValue(c) == d
  {
    ('0' as int + d) as char
  }

  function DigitValue(c: char): int
  {
    c as int - '0' as int
  }

  /** The number a string of decimal digits stands for. */
  function DecimalValue(s: string): int
  {
    if s == [] then 0 else 10 * DecimalValue(s[..|s| - 1]) + DigitValue(s[|s| - 1])
  }

  /** Reading the decimal digits of `n` back gives `n`. */
  lemma {:induction false} DecimalRoundTrip(n: nat)
    ensures DecimalValue(Decimal(n)) == n
  {
    var d := Decimal(n);
    if n < 10 {
      assert d[..|d| - 1] == [];
    } else {
      assert d[..|d| - 1] == Decimal(n / 10);
      DecimalRoundTrip(n / 10);
    }
  }

  /** Distinct sources use distinct temporary files. */
  lemma TempNameInjective(i: nat, j: nat)
    requires TempName(i) == TempName(j)
    ensures i == j
  {
    DecimalRoundTrip(i);
    DecimalRoundTrip(j);
  }

  /** The temporary files of the first `n` sources, and nothing else. */
  function TempNames(n: nat): (names: set<string>)
    ensures forall i: nat :: i < n ==> TempName(i) in names
  {
    if n == 0 then {} else TempNames(n - 1) + {TempName(n - 1)}
  }

  /** Every name in `TempNames(n)` is the temporary file of one of the first
      `n` sources, so removing them touches no other file. */
  lemma {:induction false} TempNamesOnly(n: nat, name: string)
    requires name in TempNames(n)
    ensures exists i: nat :: i < n && name == TempName(i)
  {
    if name != TempName(n - 1) {
      TempNamesOnly(n - 1, name);
    }
  }

  /** The temporary file of a source at or after position `n` is not among
      those of the first `n` sources, so processing them leaves it alone. */
  lemma LaterTempFileUntouched(n: nat, j: nat)
    requires n <= j
    ensures TempName(j) !in TempNames(n)
  {
    if TempName(j) in TempNames(n) {
      TempNamesOnly(n, TempName(j));
      var i: nat :| i < n && TempName(j) == TempName(i);
      TempNameInjective(i, j);
    }
  }

  /** The working directory, as the set of names of the files in it. */
  class FileSystem {
    var files: set<string>

    constructor (files: set<string>)
      ensures this.files == files
    {
      this.files := files;
    }
  }

  /** The page loop of one parsed document: look at the first `PageCap` pages
      in order and keep each non-empty text, until extraction raises. `kept`
      holds the texts kept before the loop ended, whether or not it `raised`. */
  method ReadPages(pages: seq<string>, raisesAt: Option<nat>) returns (kept: seq<string>, raised: bool)
    ensures kept == Collected(Parsed(pages, raisesAt))
    ensures raised <==> raisesAt.Some? && raisesAt.value < |pages| && raisesAt.value < PageCap
  {
    var limit := if |pages| < PageCap then |pages| else PageCap;
    kept, raised := [], false;
    var j := 0;
    while j < limit
      invariant 0 <= j <= limit
      invariant !raised
      invariant raisesAt.Some? ==> j <= raisesAt.value
      invariant kept == KeepNonEmpty(pages[..j])
    {
      if raisesAt == Some(j) {
        raised := true;
        break;
      }
      assert pages[..j + 1] == pages[..j] + [pages[j]];
      KeepNonEmptyAppend(pages[..j], [pages[j]]);
      if pages[j] != "" {
        kept := kept + [pages[j]];
      }
      j := j + 1;
    }
  }

  /** process_pdfs up to the point where the texts are handed to the
      splitter: the texts collected from all sources, or `NoPdfProcessed`
      when there are none. Every temporary file of a processed source is gone
      afterwards, and no other file is touched. */
  method ProcessPdfs(fs: FileSystem, sources: seq<Source>) returns (r: Result<seq<string>, AcquireError>)
    modifies fs
    ensures r == if AllTexts(sources) == [] then Failure(NoPdfProcessed) else Success(AllTexts(sources))
    ensures r.Failure? <==> forall i :: 0 <= i < |sources| ==> Collected(sources[i].outcome) == []
    ensures fs.files == old(fs.files) - TempNames(|sources|)
    ensures forall i: nat :: i < |sources| ==> TempName(i) !in fs.files
  {
    var texts: seq<string> := [];
    for i := 0 to |sources|
      invariant texts == AllTexts(sources[..i])
      invariant fs.files == old(fs.files) - TempNames(i)
    {
      var name := TempName(i);
      match sources[i].outcome {
        case DownloadFails =>
        case WriteFails(created) =>
          if created {
            fs.files := fs.files + {name};
          }
        case ParseFails =>
          fs.files := fs.files + {name};
        case Parsed(pages, raisesAt) =>
          fs.files := fs.files + {name};
          var kept, raised := ReadPages(pages, raisesAt);
          texts := texts + kept;
      }
      // the `finally` clause
      if name in fs.files {
        fs.files := fs.files - {name};
      }
      assert sources[..i + 1] == sources[..i] + [sources[i]];
      AllTextsAppend(sources[..i], [sources[i]]);
      AllTextsOne(sources[i]);
    }
    assert sources[..|sources|] == sources;
    AllTextsEmptyIff(sources);
    if texts == [] {
      r := Failure(NoPdfProcessed);
    } else {
      r := Success(texts);
    }
  }
}
