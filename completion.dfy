/**
 * The account: get-or-create flows that tie the transport, the cache and the
 * bill together, one per query kind, and the pure helpers they use.
 */
module Completion {
  import opened Wrappers
  import opened GptModels
  import opened Responses
  import opened Queries
  import opened Caching
  import opened Billing
  import MS = ModelStrings

  /** `Status`, the error values the flows return to the caller. */
  datatype Status =
    | Success
    | Error(message: string)
    | NotFoundError
    | OpenAIError
    | APIReachedLimit
    | RetrievedUnexpectedQueryType

  /** The payload handed to the transport (`ChatCompletionRequest`). */
  datatype Request = Request(model: GptModel, messages: seq<Message>, temperature: Option<real>)

  // ---------------------------------------------------------------------
  // PDF path

  predicate EndsWithSlash(dir: string)
  {
    |dir| > 0 && dir[|dir| - 1] == '/'
  }

  /** The directory a PDF is looked up in: the caller's, else the default. */
  function PdfDir(inputDir: Option<string>): string
  {
    inputDir.GetOr(MS.DefaultPdfDir)
  }

  /** Where the PDF called `title` is loaded from. */
  function PdfPath(dir: string, title: string): string
  {
    if EndsWithSlash(dir) then dir + title + ".pdf"
    else if '\\' in dir then dir + "\\" + title + ".pdf"
    else dir + "/" + title + ".pdf"
  }

  /**
   * The path is the directory, then at most one separator, then the file
   * name `title.pdf`; the separator is left out exactly when the directory
   * already ends with "/", and is "\" only for a directory holding a "\".
   */
  lemma PdfPathShape(dir: string, title: string)
    ensures var p := PdfPath(dir, title);
      var sepLen := |p| - |dir| - |title| - 4;
      && |p| >= |dir| + |title| + 4
      && p[..|dir|] == dir
      && p[|p| - |title| - 4..] == title + ".pdf"
      && (sepLen == 0 <==> EndsWithSlash(dir))
      && (sepLen == 1 ==> p[|dir|] == (if '\\' in dir then '\\' else '/'))
      && sepLen <= 1
  {
    var p := PdfPath(dir, title);
    if EndsWithSlash(dir) {
      assert p == dir + (title + ".pdf");
    } else if '\\' in dir {
      assert p == dir + "\\" + (title + ".pdf");
    } else {
      assert p == dir + "/" + (title + ".pdf");
    }
  }

  /** With no directory given, PDFs are read from "./pdfs/". */
  lemma DefaultPdfPath(title: string)
    ensures PdfPath(PdfDir(None), title) == "./pdfs/" + title + ".pdf"
  {
  }

  /** A trailing "/" on a plain directory does not change the path. */
  lemma PdfPathTrailingSlash(dir: string, title: string)
    requires !EndsWithSlash(dir) && '\\' !in dir
    ensures PdfPath(dir + "/", title) == PdfPath(dir, title)
  {
    assert EndsWithSlash(dir + "/");
  }

  // ---------------------------------------------------------------------
  // Page extraction

  /** The document text: the pages' text concatenated; `None` where extracting a page fails. */
  function JoinPages(pages: seq<Option<string>>): Option<string>
    decreases |pages|
  {
    if pages == [] then Some("")
    else
      match JoinPages(pages[..|pages| - 1])
      case None => None
      case Some(doc) =>
        if pages[|pages| - 1].None? then None else Some(doc + pages[|pages| - 1].value)
  }

  /** Once a page fails, the whole document fails. */
  lemma {:induction false} JoinPagesFailurePersists(pages: seq<Option<string>>, i: nat)
    requires i <= |pages| && JoinPages(pages[..i]).None?
    ensures JoinPages(pages).None?
    decreases |pages| - i
  {
    if i < |pages| {
      assert pages[..i + 1][..i] == pages[..i];
      JoinPagesFailurePersists(pages, i + 1);
    } else {
      assert pages[..i] == pages;
    }
  }

  /** The document is exactly the pages' text in page order. */
  lemma {:induction false} JoinPagesConcatenates(pages: seq<string>)
    ensures JoinPages(seq(|pages|, i requires 0 <= i < |pages| => Some(pages[i])))
      == Some(Concat(pages))
    decreases |pages|
  {
    var wrapped := seq(|pages|, i requires 0 <= i < |pages| => Some(pages[i]));
    if pages != [] {
      var init := pages[..|pages| - 1];
      assert wrapped[..|wrapped| - 1] == seq(|init|, i requires 0 <= i < |init| => Some(init[i]));
      JoinPagesConcatenates(init);
    }
  }

  function Concat(ss: seq<string>): string
    decreases |ss|
  {
    if ss == [] then "" else Concat(ss[..|ss| - 1]) + ss[|ss| - 1]
  }

  /** The page loop: appends each page's text to the document. */
  method ExtractDocument(pages: seq<Option<string>>) returns (doc: Option<string>)
    ensures doc == JoinPages(pages)
  {
    var text := "";
    var page := 0;
    while page < |pages|
      invariant 0 <= page <= |pages|
      invariant JoinPages(pages[..page]) == Some(text)
    {
      assert pages[..page + 1][..page] == pages[..page];
      if pages[page].None? {
        JoinPagesFailurePersists(pages, page + 1);
        return None;
      }
      text := text + pages[page].value;
      page := page + 1;
    }
    assert pages[..|pages|] == pages;
    doc := Some(text);
  }

  // ---------------------------------------------------------------------
  // Essay fold for meta completion

  function DigitChar(d: nat): char
    requires d < 10
  {
    ('0' as int + d) as char
  }

  /** The decimal notation of `n`, as `format!("{n}")` writes it. */
  function NatToString(n: nat): string
    decreases n
  {
    if n < 10 then [DigitChar(n)] else NatToString(n / 10) + [DigitChar(n % 10)]
  }

  /** The notation is non-empty, all digits, and one character exactly below ten. */
  lemma {:induction false} NatToStringDigits(n: nat)
    ensures |NatToString(n)| >= 1
    ensures forall i | 0 <= i < |NatToString(n)| :: '0' <= NatToString(n)[i] <= '9'
    ensures n < 10 <==> |NatToString(n)| == 1
    decreases n
  {
    if n >= 10 {
      NatToStringDigits(n / 10);
    }
  }

  /** The number a string of decimal digits denotes, most significant digit first. */
  function DecimalValue(s: string): int
    decreases |s|
  {
    if s == [] then 0 else DecimalValue(s[..|s| - 1]) * 10 + (s[|s| - 1] as int - '0' as int)
  }

  /** The notation denotes `n` itself and has no leading zero. */
  lemma {:induction false} NatToStringValue(n: nat)
    ensures DecimalValue(NatToString(n)) == n
    ensures n >= 10 ==> NatToString(n)[0] != '0'
    decreases n
  {
    if n >= 10 {
      NatToStringValue(n / 10);
      NatToStringDigits(n / 10);
      var s := NatToString(n / 10);
      var t := s + [DigitChar(n % 10)];
      assert t[..|t| - 1] == s;
      assert t[0] == s[0];
    }
  }

  /** The text the source reads as a response's content; `None` where its `expect` panics. */
  function FirstContent(r: Response): Option<string>
  {
    if |r.choices| > 0 && r.choices[0].message.content.Some? then
      Some(r.choices[0].message.content.value)
    else None
  }

  /** How many text queries a traversal meets. */
  function CountText(qs: seq<Query>): nat
    decreases |qs|
  {
    if qs == [] then 0 else CountText(qs[..|qs| - 1]) + (if qs[|qs| - 1].Text? then 1 else 0)
  }

  /** The contents of the text queries of a traversal, in traversal order. */
  function EssayContents(qs: seq<Query>): (r: Option<seq<string>>)
    ensures r.Some? ==> |r.value| == CountText(qs)
    decreases |qs|
  {
    if qs == [] then Some([])
    else
      var prev := EssayContents(qs[..|qs| - 1]);
      var q := qs[|qs| - 1];
      if !q.Text? then prev
      else if prev.None? || FirstContent(q.text.response).None? then None
      else Some(prev.value + [FirstContent(q.text.response).value])
  }

  /** One essay block: a blank line, its number and ")", then the essay. */
  function Block(i: nat, content: string): string
  {
    "\n\n" + NatToString(i) + ")\n" + content
  }

  /** The essays numbered 1..n in order. */
  function Numbered(cs: seq<string>): string
    decreases |cs|
  {
    if cs == [] then "" else Numbered(cs[..|cs| - 1]) + Block(|cs|, cs[|cs| - 1])
  }

  /** Once a text query lacks content, the fold fails whatever follows. */
  lemma {:induction false} EssayFailurePersists(qs: seq<Query>, i: nat)
    requires i <= |qs| && EssayContents(qs[..i]).None?
    ensures EssayContents(qs).None?
    decreases |qs| - i
  {
    if i < |qs| {
      assert qs[..i + 1][..i] == qs[..i];
      EssayFailurePersists(qs, i + 1);
    } else {
      assert qs[..i] == qs;
    }
  }

  /** The essays of any prefix are numbered exactly as in the whole list. */
  lemma {:induction false} NumberedPrefix(cs: seq<string>, i: nat)
    requires i <= |cs|
    ensures Numbered(cs[..i]) <= Numbered(cs)
    decreases |cs| - i
  {
    if i < |cs| {
      NumberedPrefix(cs, i + 1);
      NumberedStep(cs, i);
    } else {
      assert cs[..i] == cs;
    }
  }

  /** The i-th essay (from 0) is the block numbered i + 1, right after the essays before it. */
  lemma EssayNumbering(cs: seq<string>, i: nat)
    requires i < |cs|
    ensures Numbered(cs[..i]) + Block(i + 1, cs[i]) <= Numbered(cs)
  {
    NumberedStep(cs, i);
    NumberedPrefix(cs, i + 1);
  }

  /** The numbering of one more prefix element adds that element's block. */
  lemma NumberedStep(cs: seq<string>, i: nat)
    requires i < |cs|
    ensures Numbered(cs[..i + 1]) == Numbered(cs[..i]) + Block(i + 1, cs[i])
  {
    assert cs[..i + 1][..i] == cs[..i];
  }

  /** Appending one essay appends exactly its block. */
  lemma NumberedSnoc(cs: seq<string>, c: string)
    ensures Numbered(cs + [c]) == Numbered(cs) + Block(|cs| + 1, c)
  {
    var d := cs + [c];
    assert d[..|d| - 1] == cs;
    assert d[|d| - 1] == c;
  }

  /** Pushing the header and then the essay is pushing the block. */
  lemma PushBlock(built: string, header: string, i: nat, c: string)
    requires header == "\n\n" + NatToString(i) + ")\n"
    ensures built + header + c == built + Block(i, c)
  {
    assert Block(i, c) == header + c;
  }

  /** Entries other than text queries contribute nothing to the fold. */
  lemma {:induction false} NonTextEntriesIgnored(qs: seq<Query>, q: Query)
    requires !q.Text?
    ensures EssayContents(qs + [q]) == EssayContents(qs)
  {
    assert (qs + [q])[..|qs|] == qs;
  }

  /**
   * The essay loop: for each text query met, bump the counter and append
   * its numbered block. `None` is the source's panic on a missing content.
   */
  method FoldEssays(qs: seq<Query>) returns (r: Option<string>)
    ensures EssayContents(qs).None? ==> r.None?
    ensures EssayContents(qs).Some? ==> r == Some(Numbered(EssayContents(qs).value))
  {
    var built := "";
    var iter := 0;
    var i := 0;
    while i < |qs|
      invariant 0 <= i <= |qs|
      invariant EssayContents(qs[..i]).Some?
      invariant iter == |EssayContents(qs[..i]).value|
      invariant built == Numbered(EssayContents(qs[..i]).value)
    {
      assert qs[..i + 1][..i] == qs[..i];
      var q := qs[i];
      if q.Text? {
        var content := FirstContent(q.text.response);
        if content.None? {
          EssayFailurePersists(qs, i + 1);
          return None;
        }
        ghost var cs := EssayContents(qs[..i]).value;
        assert EssayContents(qs[..i + 1]).value == cs + [content.value];
        NumberedSnoc(cs, content.value);
        iter := iter + 1;
        var header := "\n\n" + NatToString(iter) + ")\n";
        PushBlock(built, header, iter, content.value);
        built := built + header;
        built := built + content.value;
      }
      i := i + 1;
    }
    assert qs[..|qs|] == qs;
    r := Some(built);
  }

  /** The entries of `m` in the order `order` visits them. */
  function Traverse(m: Entries, order: seq<string>): (qs: seq<Query>)
    requires forall k | k in order :: k in m
    ensures |qs| == |order|
    ensures forall i | 0 <= i < |order| :: qs[i] == m[order[i]]
  {
    seq(|order|, i requires 0 <= i < |order| => m[order[i]])
  }

  // ---------------------------------------------------------------------
  // Requests

  function ChatRequest(model: GptModel, temperature: real, prompt: string): Request
  {
    Request(model, [Message(User, Some(prompt))], Some(temperature))
  }

  function DocumentRequest(model: GptModel, temperature: real, doc: string, prompt: string): Request
  {
    Request(model,
      [ Message(System, Some("You will receive a document, and a prompt regarding the document.")),
        Message(Assistant, Some(doc)),
        Message(User, Some(prompt)) ],
      Some(temperature))
  }

  /** The meta request keeps the defaults for the first role and for the temperature. */
  function MetaRequest(model: GptModel, essays: string, prompt: string): Request
  {
    Request(model,
      [ Message(User, Some("You will receive a prompt, and data to which you will apply that prompt.")),
        Message(Assistant, Some("Data: " + essays)),
        Message(User, Some("Prompt: " + prompt)) ],
      None)
  }

  class Account {
    const model: GptModel
    var temperature: real
    const cache: Cache
    const bill: Bill
    /** Every payload handed to the transport, in order. */
    ghost var requests: seq<Request>
    /** Every PDF path the account tried to load, in order. */
    ghost var pdfLoads: seq<string>

    ghost predicate Valid()
      reads this, cache, bill
    {
      cache.Valid() && bill.Valid()
    }

    /** An account over a loaded cache and bill. */
    constructor (model: GptModel, temperature: real, cache: Cache, bill: Bill)
      requires cache.Valid() && bill.Valid()
      ensures Valid() && this.model == model && this.temperature == temperature
      ensures this.cache == cache && this.bill == bill
      ensures requests == [] && pdfLoads == []
    {
      this.model := model;
      this.temperature := temperature;
      this.cache := cache;
      this.bill := bill;
      requests := [];
      pdfLoads := [];
    }

    /** The shared hit bookkeeping: count the retrieval and re-persist the bill. */
    method CountCacheHit()
      modifies bill
      ensures bill.Valid() && bill.writes == old(bill.writes) + 1
      ensures bill.Snapshot() == old(bill.Snapshot()).(cacheRetrievals := old(bill.cacheRetrievals) + 1)
    {
      bill.cacheRetrievals := bill.cacheRetrievals + 1;
      bill.Update(None);
    }

    /**
     * `get_completion`: a chat query for `prompt`, from the cache if its key
     * is there, else from the transport (whose answer is `reply`, received
     * after `elapsedMs` milliseconds).
     */
    method GetCompletion(prompt: string, reply: Result<Response, string>, elapsedMs: nat)
      returns (r: Outcome<ChatQuery, Status>)
      requires Valid()
      modifies this, cache, bill
      ensures Valid()
      ensures temperature == old(temperature) && pdfLoads == old(pdfLoads)
      ensures cache.graveyard == old(cache.graveyard)
      ensures old(bill.cacheRetrievals) <= bill.cacheRetrievals <= old(bill.cacheRetrievals) + 1
      // hit: no transport call, no cache mutation
      ensures ChatKey(prompt) in old(cache.entries) ==>
        && requests == old(requests)
        && cache.entries == old(cache.entries) && cache.writes == old(cache.writes)
      ensures ChatKey(prompt) in old(cache.entries) && old(cache.entries)[ChatKey(prompt)].Chat? ==>
        && r == Ok(old(cache.entries)[ChatKey(prompt)].chat.(fromCache := true))
        && bill.Snapshot() == old(bill.Snapshot()).(cacheRetrievals := old(bill.cacheRetrievals) + 1)
        && bill.writes == old(bill.writes) + 1
      ensures ChatKey(prompt) in old(cache.entries) && !old(cache.entries)[ChatKey(prompt)].Chat? ==>
        && r == Err(RetrievedUnexpectedQueryType)
        && bill.Snapshot() == old(bill.Snapshot()) && bill.writes == old(bill.writes)
      // miss
      ensures ChatKey(prompt) !in old(cache.entries) ==>
        requests == old(requests) + [ChatRequest(model, old(temperature), prompt)]
      ensures ChatKey(prompt) !in old(cache.entries) && reply.Failure? ==>
        && r == Err(Error(reply.error))
        && cache.entries == old(cache.entries) && cache.writes == old(cache.writes)
        && bill.Snapshot() == old(bill.Snapshot()) && bill.writes == old(bill.writes)
      ensures ChatKey(prompt) !in old(cache.entries) && reply.Success? ==>
        var q := ChatQuery(prompt, Cost(reply.value, model), reply.value, elapsedMs / 1000,
                           model, old(temperature), false);
        && r == Ok(q)
        && cache.entries == old(cache.entries)[ChatKey(prompt) := Chat(q)]
        && cache.writes == old(cache.writes) + 1
        && bill.Snapshot() == Charge(old(bill.Snapshot()), Chat(q))
        && bill.writes == old(bill.writes) + 1
    {
      var key := ChatKey(prompt);
      var hit := cache.Get(key);
      if hit.Some? {
        if hit.value.Chat? {
          var q := hit.value.chat.(fromCache := true);
          CountCacheHit();
          return Ok(q);
        } else {
          return Err(RetrievedUnexpectedQueryType);
        }
      }
      requests := requests + [ChatRequest(model, temperature, prompt)];
      if reply.Failure? {
        return Err(Error(reply.error));
      }
      var response := reply.value;
      var q := ChatQuery(prompt, Cost(response, model), response, elapsedMs / 1000, model, temperature, false);
      cache.Insert(Chat(q));
      bill.Update(Some(Chat(q)));
      r := Ok(q);
    }

    /**
     * `apply_prompt_to_pdf`: a text query for `prompt` about the PDF `title`.
     * A hit is served before the PDF is touched; a miss loads the PDF
     * (`pdf`: the load's outcome, then each page's extracted text), asks the
     * transport and caches and bills the answer.
     */
    method ApplyPromptToPdf(title: string, prompt: string, inputDir: Option<string>,
                            pdf: Result<seq<Option<string>>, string>,
                            reply: Result<Response, string>, elapsedMs: nat)
      returns (r: Outcome<TextQuery, Status>)
      requires Valid()
      modifies this, cache, bill
      ensures Valid()
      ensures temperature == old(temperature) && cache.graveyard == old(cache.graveyard)
      // hit: the PDF is never needed
      ensures TextKey(prompt, title) in old(cache.entries) ==>
        && requests == old(requests) && pdfLoads == old(pdfLoads)
        && cache.entries == old(cache.entries) && cache.writes == old(cache.writes)
      ensures TextKey(prompt, title) in old(cache.entries) && old(cache.entries)[TextKey(prompt, title)].Text? ==>
        && r == Ok(old(cache.entries)[TextKey(prompt, title)].text.(fromCache := true))
        && bill.Snapshot() == old(bill.Snapshot()).(cacheRetrievals := old(bill.cacheRetrievals) + 1)
        && bill.writes == old(bill.writes) + 1
      ensures TextKey(prompt, title) in old(cache.entries) && !old(cache.entries)[TextKey(prompt, title)].Text? ==>
        r.Panic? && bill.Snapshot() == old(bill.Snapshot()) && bill.writes == old(bill.writes)
      // miss
      ensures TextKey(prompt, title) !in old(cache.entries) ==>
        pdfLoads == old(pdfLoads) + [PdfPath(PdfDir(inputDir), title)]
      ensures TextKey(prompt, title) !in old(cache.entries) && (pdf.Failure? || JoinPages(pdf.value).None?) ==>
        && requests == old(requests)
        && r == (if pdf.Failure? then Err(Error(pdf.error)) else Panic("parse"))
        && cache.entries == old(cache.entries) && cache.writes == old(cache.writes)
        && bill.Snapshot() == old(bill.Snapshot()) && bill.writes == old(bill.writes)
      ensures TextKey(prompt, title) !in old(cache.entries) && pdf.Success? && JoinPages(pdf.value).Some? ==>
        requests == old(requests)
          + [DocumentRequest(model, old(temperature), JoinPages(pdf.value).value, prompt)]
      ensures TextKey(prompt, title) !in old(cache.entries) && pdf.Success? && JoinPages(pdf.value).Some?
              && reply.Failure? ==>
        && r == Err(Error(reply.error))
        && cache.entries == old(cache.entries) && cache.writes == old(cache.writes)
        && bill.Snapshot() == old(bill.Snapshot()) && bill.writes == old(bill.writes)
      ensures TextKey(prompt, title) !in old(cache.entries) && pdf.Success? && JoinPages(pdf.value).Some?
              && reply.Success? ==>
        var q := TextQuery(prompt, Cost(reply.value, model), reply.value, elapsedMs, model, title,
                           old(temperature), false);
        && r == Ok(q)
        && cache.entries == old(cache.entries)[TextKey(prompt, title) := Text(q)]
        && cache.writes == old(cache.writes) + 1
        && bill.Snapshot() == Charge(old(bill.Snapshot()), Text(q))
        && bill.writes == old(bill.writes) + 1
    {
      var path := PdfPath(PdfDir(inputDir), title);
      var key := TextKey(prompt, title);
      var hit := cache.Get(key);
      if hit.Some? {
        if !hit.value.Text? {
          return Panic("Expected to be a TextQuery");
        }
        var q := hit.value.ExpectAsText().(fromCache := true);
        CountCacheHit();
        return Ok(q);
      }
      pdfLoads := pdfLoads + [path];
      if pdf.Failure? {
        return Err(Error(pdf.error));
      }
      var doc := ExtractDocument(pdf.value);
      if doc.None? {
        return Panic("parse");
      }
      requests := requests + [DocumentRequest(model, temperature, doc.value, prompt)];
      if reply.Failure? {
        return Err(Error(reply.error));
      }
      var response := reply.value;
      var q := TextQuery(prompt, Cost(response, model), response, elapsedMs, model, title, temperature, false);
      cache.Insert(Text(q));
      bill.Update(Some(Text(q)));
      r := Ok(q);
    }

    /**
     * `meta_complete_cache`: never looks the prompt up. Folds the text
     * queries of the cache, visited in `order`, into one data block, asks the
     * transport, and stores the answer at "Meta: " + prompt, overwriting (and
     * burying) any earlier meta answer for that prompt.
     */
    method MetaCompleteCache(prompt: string, order: seq<string>,
                             reply: Result<Response, string>, elapsedMs: nat)
      returns (r: Outcome<MetaQuery, Status>)
      requires Valid()
      requires Enumerates(order, cache.entries)
      modifies this, cache, bill
      ensures Valid()
      ensures temperature == old(temperature) && pdfLoads == old(pdfLoads)
      ensures bill.cacheRetrievals == old(bill.cacheRetrievals)
      ensures r.Ok? ==> !r.value.fromCache
      ensures var essays := EssayContents(Traverse(old(cache.entries), order));
        && (essays.None? ==> r.Panic? && requests == old(requests))
        && (essays.Some? ==>
              requests == old(requests) + [MetaRequest(model, Numbered(essays.value), prompt)])
      ensures !r.Ok? ==>
        && cache.entries == old(cache.entries) && cache.writes == old(cache.writes)
        && cache.graveyard == old(cache.graveyard)
        && bill.Snapshot() == old(bill.Snapshot()) && bill.writes == old(bill.writes)
      ensures EssayContents(Traverse(old(cache.entries), order)).Some? && reply.Failure? ==>
        r == Err(Error(reply.error))
      ensures EssayContents(Traverse(old(cache.entries), order)).Some? && reply.Success? ==>
        var q := MetaQuery(prompt, Cost(reply.value, model), reply.value, elapsedMs, model,
                           old(temperature), false);
        && r == Ok(q)
        && cache.entries == old(cache.entries)[MetaKey(prompt) := Meta(q)]
        && cache.graveyard == old(cache.graveyard) + Displaced(old(cache.entries), Meta(q))
        && cache.writes == old(cache.writes) + 1
        && bill.Snapshot() == Charge(old(bill.Snapshot()), Meta(q))
        && bill.writes == old(bill.writes) + 1
    {
      var visited := Traverse(cache.entries, order);
      var essays := FoldEssays(visited);
      if essays.None? {
        return Panic("presence of content field in GPT-response");
      }
      requests := requests + [MetaRequest(model, essays.value, prompt)];
      if reply.Failure? {
        return Err(Error(reply.error));
      }
      var response := reply.value;
      var q := MetaQuery(prompt, Cost(response, model), response, elapsedMs, model, temperature, false);
      cache.Insert(Meta(q));
      bill.Update(Some(Meta(q)));
      r := Ok(q);
    }

    /** `cache_query`: the key argument is ignored; `q` is stored under its own key. */
    method CacheQuery(cacheKey: string, q: Query)
      requires Valid()
      modifies cache
      ensures Valid()
      ensures cache.entries == old(cache.entries)[q.Key() := q]
      ensures cache.graveyard == old(cache.graveyard) + Displaced(old(cache.entries), q)
      ensures cache.writes == old(cache.writes) + 1
    {
      cache.Insert(q);
    }

    /** `remove_from_cache`. */
    method RemoveFromCache(cacheKey: string) returns (r: Option<(string, Query)>)
      requires Valid()
      modifies cache
      ensures Valid() && cache.graveyard == old(cache.graveyard)
      ensures cacheKey in old(cache.entries) ==>
        r == Some((cacheKey, old(cache.entries)[cacheKey])) && cache.entries == old(cache.entries) - {cacheKey} &&
        cache.writes == old(cache.writes) + 1
      ensures cacheKey !in old(cache.entries) ==>
        r == None && cache.entries == old(cache.entries) && cache.writes == old(cache.writes)
    {
      r := cache.Remove(cacheKey);
    }

    /** `clear_cache`. */
    method ClearCache()
      requires Valid()
      modifies cache
      ensures Valid() && cache.entries == map[] && cache.graveyard == old(cache.graveyard)
      ensures cache.writes == old(cache.writes) + 1
    {
      cache.Clear();
    }
  }

  /**
   * The airplane-food scenario: the first call for a prompt goes to the
   * transport, the second is served from the cache with the same response,
   * one entry is cached, one query is billed and one retrieval counted.
   */
  method RepeatedPromptScenario(prompt: string, response: Response)
    returns (first: Outcome<ChatQuery, Status>, second: Outcome<ChatQuery, Status>,
             entries: nat, queries: int, retrievals: int)
    ensures first.Ok? && second.Ok?
    ensures !first.value.fromCache && second.value.fromCache
    ensures second.value.response.id == first.value.response.id
    ensures entries == 1 && queries == 1 && retrievals == 1
  {
    var cache := new Cache(map[]);
    var bill := new Bill(EmptyBill);
    var account := new Account(Gpt35Turbo, 0.5, cache, bill);
    first := account.GetCompletion(prompt, Result.Success(response), 1200);
    second := account.GetCompletion(prompt, Failure("no second request is sent"), 0);
    entries := |cache.entries|;
    queries := bill.queryCount;
    retrievals := bill.cacheRetrievals;
  }
}
