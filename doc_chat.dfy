/**
 * The document chat (`chat_with_pdf.py`): reading uploads into documents,
 * joining retrieved documents into the prompt context, converting the chat
 * history, citing sources without repetition, and the question turn.
 */
module DocChat {
  import opened Options
  import opened Text

  /** A document: its text and the metadata entries "source" and "page" (either may be missing). */
  datatype Document = Document(content: string, source: Option<string>, page: Option<int>)

  // ---------------------------------------------------------------------------
  // Reading uploads
  // ---------------------------------------------------------------------------

  /** What the PDF reader gives for one page: some text, nothing (`None` or ""), or an exception. */
  datatype PageExtraction = Extracted(text: string) | NoText | ExtractFailed

  /**
   * An uploaded file: its name, its bytes decoded as UTF-8 (errors ignored),
   * and what the PDF reader extracts from each of its pages. Which of the two
   * views is used depends on the name alone.
   */
  datatype Upload = Upload(name: string, text: string, pages: seq<PageExtraction>)

  /** `page.extract_text() or ""`, with a raising extraction giving "" too. */
  function PageContent(p: PageExtraction): string {
    match p
    case Extracted(t) => t
    case _ => ""
  }

  /** The upload is read as text when its lower-cased name ends in ".txt". */
  predicate IsTxtName(name: string) {
    EndsWith(Lower(name), ".txt")
  }

  /** `read_txt`. */
  function ReadTxt(f: Upload): Document {
    Document(f.text, Some(f.name), None)
  }

  /** The documents `read_pdf` builds for the file `name`. */
  function PdfDocuments(name: string, pages: seq<PageExtraction>): seq<Document> {
    seq(|pages|, i requires 0 <= i < |pages| => Document(PageContent(pages[i]), Some(name), Some(i + 1)))
  }

  /** `read_pdf`: one document per page, numbered from 1, all citing the file's name. */
  method ReadPdf(name: string, pages: seq<PageExtraction>) returns (out: seq<Document>)
    ensures |out| == |pages|
    ensures forall i :: 0 <= i < |pages| ==> out[i] == Document(PageContent(pages[i]), Some(name), Some(i + 1))
  {
    out := [];
    var i := 0;
    while i < |pages|
      invariant 0 <= i <= |pages|
      invariant |out| == i
      invariant forall j :: 0 <= j < i ==> out[j] == Document(PageContent(pages[j]), Some(name), Some(j + 1))
    {
      var text := match pages[i] case Extracted(t) => t case NoText => "" case ExtractFailed => "";
      out := out + [Document(text, Some(name), Some(i + 1))];
      i := i + 1;
    }
  }

  /** The documents one upload contributes. */
  function UploadDocuments(f: Upload): seq<Document> {
    if IsTxtName(f.name) then [ReadTxt(f)] else PdfDocuments(f.name, f.pages)
  }

  /** The documents of all uploads, file after file. */
  function AllDocuments(files: seq<Upload>): seq<Document>
    decreases |files|
  {
    if |files| == 0 then [] else AllDocuments(files[..|files| - 1]) + UploadDocuments(files[|files| - 1])
  }

  /** The upload loop of chat_with_pdf.py (lines 71-77): route each file by its name and collect its documents. */
  method LoadUploads(files: seq<Upload>) returns (rawDocs: seq<Document>)
    ensures rawDocs == AllDocuments(files)
  {
    rawDocs := [];
    var i := 0;
    while i < |files|
      invariant 0 <= i <= |files|
      invariant rawDocs == AllDocuments(files[..i])
    {
      var f := files[i];
      assert files[..i + 1][..i] == files[..i];
      if EndsWith(Lower(f.name), ".txt") {
        rawDocs := rawDocs + [ReadTxt(f)];
      } else {
        var pdf := ReadPdf(f.name, f.pages);
        assert pdf == PdfDocuments(f.name, f.pages);
        rawDocs := rawDocs + pdf;
      }
      i := i + 1;
    }
    assert files[..|files|] == files;
  }

  /** A ".txt" upload (in any letter case) is exactly one document citing the file's own name. */
  lemma TxtUploadIsOneDocument(f: Upload)
    requires IsTxtName(f.name)
    ensures UploadDocuments(f) == [Document(f.text, Some(f.name), None)]
  {
  }

  /** Any other upload is read as a PDF: one document per page, page `i + 1` at index `i`, an unreadable page empty. */
  lemma PdfUploadPages(f: Upload)
    requires !IsTxtName(f.name)
    ensures |UploadDocuments(f)| == |f.pages|
    ensures forall i :: 0 <= i < |f.pages| ==>
      && UploadDocuments(f)[i].page == Some(i + 1)
      && UploadDocuments(f)[i].source == Some(f.name)
      && (f.pages[i].Extracted? ==> UploadDocuments(f)[i].content == f.pages[i].text)
      && (!f.pages[i].Extracted? ==> UploadDocuments(f)[i].content == "")
  {
  }

  /** The suffix test ignores letter case and looks at the end of the name only. */
  lemma RoutingExamples()
    ensures IsTxtName("NOTES.TXT")
    ensures !IsTxtName("notes.txt.pdf")
  {
    assert Lower("NOTES.TXT") == "notes.txt";
    assert Lower("notes.txt.pdf")[9..] == ".pdf";
  }

  lemma LastOfConcat<T>(a: seq<T>, b: seq<T>)
    requires |b| > 0
    ensures (a + b)[|a + b| - 1] == b[|b| - 1]
  {
  }

  /** Uploads contribute their documents in upload order. */
  lemma {:induction false} AllDocumentsAppend(a: seq<Upload>, b: seq<Upload>)
    ensures AllDocuments(a + b) == AllDocuments(a) + AllDocuments(b)
    decreases |b|
  {
    if |b| == 0 {
      assert a + b == a;
    } else {
      var b' := b[..|b| - 1];
      var f := b[|b| - 1];
      assert AllDocuments(a + b) == AllDocuments(a + b') + UploadDocuments(f) by {
        assert (a + b)[..|a + b| - 1] == a + b';
        LastOfConcat(a, b);
      }
      assert AllDocuments(b) == AllDocuments(b') + UploadDocuments(f);
      AllDocumentsAppend(a, b');
    }
  }

  // ---------------------------------------------------------------------------
  // Context for the prompt
  // ---------------------------------------------------------------------------

  function Contents(docs: seq<Document>): seq<string> {
    seq(|docs|, i requires 0 <= i < |docs| => docs[i].content)
  }

  /** `build_context`: the contents separated by blank lines. */
  function BuildContext(docs: seq<Document>): (r: string)
    ensures |docs| == 0 ==> r == ""
    ensures |docs| == 1 ==> r == docs[0].content
  {
    Join(Contents(docs), "\n\n")
  }

  /** The context keeps retrieval order: a further document comes after a blank line. */
  lemma BuildContextSnoc(docs: seq<Document>, d: Document)
    requires |docs| > 0
    ensures BuildContext(docs + [d]) == BuildContext(docs) + "\n\n" + d.content
  {
    assert Contents(docs + [d]) == Contents(docs) + [d.content];
    JoinSnoc(Contents(docs), d.content, "\n\n");
  }

  /** Nothing but the contents and one blank line between neighbours. */
  lemma BuildContextLength(docs: seq<Document>)
    requires |docs| > 0
    ensures |BuildContext(docs)| == TotalLength(Contents(docs)) + 2 * (|docs| - 1)
  {
    JoinLength(Contents(docs), "\n\n");
  }

  // ---------------------------------------------------------------------------
  // Chat history conversion
  // ---------------------------------------------------------------------------

  /** A history entry as a dictionary: "role" and "content" may be missing. */
  datatype HistoryEntry = HistoryEntry(role: Option<string>, content: Option<string>)

  datatype LcMessage = Human(content: string) | AI(content: string)

  /** The message an entry becomes, if any. */
  function ToLc(m: HistoryEntry): Option<LcMessage> {
    if m.role == Some("user") then Some(Human(m.content.GetOr("")))
    else if m.role == Some("assistant") then Some(AI(m.content.GetOr("")))
    else None
  }

  predicate IsChatEntry(m: HistoryEntry) {
    m.role == Some("user") || m.role == Some("assistant")
  }

  /** The converted history, entry by entry. */
  function LcHistory(h: seq<HistoryEntry>): seq<LcMessage>
    decreases |h|
  {
    if |h| == 0 then []
    else
      var last := ToLc(h[|h| - 1]);
      LcHistory(h[..|h| - 1]) + (if last.Some? then [last.value] else [])
  }

  /** The number of user and assistant entries. */
  function ChatCount(h: seq<HistoryEntry>): nat
    decreases |h|
  {
    if |h| == 0 then 0 else ChatCount(h[..|h| - 1]) + (if IsChatEntry(h[|h| - 1]) then 1 else 0)
  }

  /** `lc_history_from_streamlit`. */
  method LcHistoryFromStreamlit(history: seq<HistoryEntry>) returns (out: seq<LcMessage>)
    ensures out == LcHistory(history)
  {
    out := [];
    var i := 0;
    while i < |history|
      invariant 0 <= i <= |history|
      invariant out == LcHistory(history[..i])
    {
      var m := history[i];
      assert history[..i + 1][..i] == history[..i];
      var role := m.role;
      var content := m.content.GetOr("");
      if role == Some("user") {
        out := out + [Human(content)];
      } else if role == Some("assistant") {
        out := out + [AI(content)];
      }
      i := i + 1;
    }
    assert history[..|history|] == history;
  }

  /** One message per user or assistant entry, never more than there are entries. */
  lemma {:induction false} LcHistoryLength(h: seq<HistoryEntry>)
    ensures |LcHistory(h)| == ChatCount(h) <= |h|
    decreases |h|
  {
    if |h| > 0 {
      LcHistoryLength(h[..|h| - 1]);
    }
  }

  /** Conversion keeps the original order: the history of a concatenation is the concatenation of the histories. */
  lemma {:induction false} LcHistoryAppend(a: seq<HistoryEntry>, b: seq<HistoryEntry>)
    ensures LcHistory(a + b) == LcHistory(a) + LcHistory(b)
    decreases |b|
  {
    if |b| == 0 {
      assert a + b == a;
    } else {
      var b' := b[..|b| - 1];
      assert (a + b)[..|a + b| - 1] == a + b';
      LastOfConcat(a, b);
      LcHistoryAppend(a, b');
    }
  }

  /** A single entry: user becomes Human, assistant becomes AI, a missing content is "", any other role is dropped. */
  lemma LcHistorySingle(m: HistoryEntry)
    ensures m.role == Some("user") ==> LcHistory([m]) == [Human(m.content.GetOr(""))]
    ensures m.role == Some("assistant") ==> LcHistory([m]) == [AI(m.content.GetOr(""))]
    ensures !IsChatEntry(m) ==> LcHistory([m]) == []
  {
    assert [m][..0] == [];
  }

  // ---------------------------------------------------------------------------
  // Citations
  // ---------------------------------------------------------------------------

  /** The citation of one retrieved document: its source, then ":p" and the page when the page is present and non-zero. */
  function Cite(d: Document): string {
    d.source.GetOr("") + (if d.page.Some? && d.page.value != 0 then ":p" + IntToString(d.page.value) else "")
  }

  /** Two pages of one source get different citations, so de-duplication never merges them. */
  lemma CitePagesDistinct(src: string, c1: string, c2: string, p1: nat, p2: nat)
    requires p1 > 0 && p2 > 0
    requires Cite(Document(c1, Some(src), Some(p1))) == Cite(Document(c2, Some(src), Some(p2)))
    ensures p1 == p2
  {
    var a := Cite(Document(c1, Some(src), Some(p1)));
    assert a == src + ":p" + NatToString(p1);
    assert a[|src| + 2..] == NatToString(p1);
    assert Cite(Document(c2, Some(src), Some(p2)))[|src| + 2..] == NatToString(p2);
    NatToStringInjective(p1, p2);
  }

  /** What a document read from an upload cites: the bare file name for text, the name and page for a PDF page. */
  lemma CiteUploadedDocument(f: Upload, i: nat)
    requires i < |UploadDocuments(f)|
    ensures IsTxtName(f.name) ==> Cite(UploadDocuments(f)[i]) == f.name
    ensures !IsTxtName(f.name) ==> Cite(UploadDocuments(f)[i]) == f.name + ":p" + NatToString(i + 1)
  {
  }

  function Cites(docs: seq<Document>): seq<string> {
    seq(|docs|, i requires 0 <= i < |docs| => Cite(docs[i]))
  }

  /** The loop of chat_with_pdf.py (lines 147-151) that collects one citation per retrieved document. */
  method CollectCites(retrieved: seq<Document>) returns (cites: seq<string>)
    ensures |cites| == |retrieved|
    ensures forall i :: 0 <= i < |retrieved| ==> cites[i] == Cite(retrieved[i])
  {
    cites := [];
    var i := 0;
    while i < |retrieved|
      invariant 0 <= i <= |retrieved|
      invariant |cites| == i
      invariant forall j :: 0 <= j < i ==> cites[j] == Cite(retrieved[j])
    {
      var d := retrieved[i];
      var src := d.source.GetOr("");
      var page := d.page;
      cites := cites + [src + (if page.Some? && page.value != 0 then ":p" + IntToString(page.value) else "")];
      i := i + 1;
    }
  }

  predicate NoDuplicates(s: seq<string>) {
    forall i, j :: 0 <= i < j < |s| ==> s[i] != s[j]
  }

  /** `list(dict.fromkeys(xs))`: each element once, at its first occurrence. */
  function Dedup(xs: seq<string>): (r: seq<string>)
    ensures NoDuplicates(r)
    ensures forall x :: x in r <==> x in xs
    decreases |xs|
  {
    if |xs| == 0 then []
    else
      var d := Dedup(xs[..|xs| - 1]);
      var x := xs[|xs| - 1];
      assert forall y :: y in xs <==> y in xs[..|xs| - 1] || y == x;
      if x in d then d else d + [x]
  }

  /** The index of the first occurrence of `x`. */
  function FirstIndex(xs: seq<string>, x: string): (i: nat)
    requires x in xs
    ensures i < |xs| && xs[i] == x && x !in xs[..i]
    decreases |xs|
  {
    if xs[0] == x then 0 else 1 + FirstIndex(xs[1..], x)
  }

  lemma {:induction false} FirstIndexSnoc(xs: seq<string>, x: string, y: string)
    requires y in xs
    ensures FirstIndex(xs + [x], y) == FirstIndex(xs, y)
    decreases |xs|
  {
    if xs[0] != y {
      assert (xs + [x])[1..] == xs[1..] + [x];
      FirstIndexSnoc(xs[1..], x, y);
    }
  }

  /** De-duplication keeps first occurrences in their original order. */
  lemma {:induction false} DedupKeepsFirstOrder(xs: seq<string>)
    ensures forall i, j :: 0 <= i < j < |Dedup(xs)| ==> FirstIndex(xs, Dedup(xs)[i]) < FirstIndex(xs, Dedup(xs)[j])
    decreases |xs|
  {
    if |xs| > 0 {
      var pre := xs[..|xs| - 1];
      var x := xs[|xs| - 1];
      assert xs == pre + [x];
      var d := Dedup(pre);
      DedupKeepsFirstOrder(pre);
      forall y | y in d
        ensures FirstIndex(xs, y) == FirstIndex(pre, y) < |pre|
      {
        FirstIndexSnoc(pre, x, y);
      }
      if x !in d {
        assert x !in pre;
        assert FirstIndex(xs, x) == |pre|;
      }
    }
  }

  /** A list without repetitions is left as it is. */
  lemma {:induction false} DedupDistinct(xs: seq<string>)
    requires NoDuplicates(xs)
    ensures Dedup(xs) == xs
    decreases |xs|
  {
    if |xs| > 0 {
      var pre := xs[..|xs| - 1];
      DedupDistinct(pre);
      assert xs[|xs| - 1] !in pre;
      assert xs == pre + [xs[|xs| - 1]];
    }
  }

  /** The text after "Sources: ". */
  function SourcesLine(retrieved: seq<Document>): string {
    Join(Dedup(Cites(retrieved)), "; ")
  }

  /** The answer with its sources appended. */
  function WithSources(answer: string, retrieved: seq<Document>): string {
    answer + "\n\nSources: " + SourcesLine(retrieved)
  }

  // ---------------------------------------------------------------------------
  // The question turn
  // ---------------------------------------------------------------------------

  datatype Message = Message(role: string, content: string)

  const Greeting := "I will answer the question based on your documents."
  const DontKnow := "I don't know based on the provided documents."

  /** What the retriever gives for the question: a list of documents, or an exception. */
  datatype Retrieval = RetrievalFailed(error: string) | Retrieved(docs: seq<Document>)

  /** What the model gives for a prompt: an answer, or an exception. */
  datatype Completion = Answered(content: string) | CompletionFailed(error: string)

  /** The human message sent to the model beside the fixed system message. */
  function Prompt(question: string, docs: seq<Document>): string {
    "Question: " + question + "\n\nContext:\n" + BuildContext(docs)
  }

  /** The assistant entry one question adds. */
  function Reply(question: string, retrieval: Retrieval, llm: string -> Completion): string {
    match retrieval
    case RetrievalFailed(e) => "Error: " + e
    case Retrieved(docs) =>
      if |docs| == 0 then DontKnow
      else
        match llm(Prompt(question, docs))
        case CompletionFailed(e) => "Error: " + e
        case Answered(a) => WithSources(a, docs)
  }

  /** An empty retrieval answers exactly "I don't know based on the provided documents.", without asking the model. */
  lemma EmptyRetrievalReply(question: string, llm: string -> Completion)
    ensures Reply(question, Retrieved([]), llm) == DontKnow
  {
  }

  /** A model answer is followed by the sources: each citation once, first-seen order, separated by "; ". */
  lemma AnsweredReply(question: string, docs: seq<Document>, llm: string -> Completion)
    requires |docs| > 0 && llm(Prompt(question, docs)).Answered?
    ensures Reply(question, Retrieved(docs), llm)
         == llm(Prompt(question, docs)).content + "\n\nSources: " + Join(Dedup(Cites(docs)), "; ")
    ensures NoDuplicates(Dedup(Cites(docs)))
    ensures forall d :: d in docs ==> Cite(d) in Dedup(Cites(docs))
  {
    forall d | d in docs
      ensures Cite(d) in Cites(docs)
    {
      var i :| 0 <= i < |docs| && docs[i] == d;
      assert Cites(docs)[i] == Cite(d);
    }
  }

  /** A message of the session's history as the dictionary the conversion reads. */
  function AsEntry(m: Message): HistoryEntry {
    HistoryEntry(Some(m.role), Some(m.content))
  }

  /** Every role in the session's history is "user" or "assistant". */
  predicate Conversational(ms: seq<Message>) {
    forall i :: 0 <= i < |ms| ==> ms[i].role == "user" || ms[i].role == "assistant"
  }

  /** `st.session_state["messages"]` of the document chat. */
  class ChatSession {
    var messages: seq<Message>

    /** A fresh history is the greeting alone. */
    constructor ()
      ensures messages == [Message("assistant", Greeting)]
      ensures Conversational(messages)
    {
      messages := [Message("assistant", Greeting)];
    }

    /** One question, chat_with_pdf.py lines 118-159: the history gains the question and then the reply. */
    method Ask(question: string, retrieval: Retrieval, llm: string -> Completion)
      modifies this
      ensures messages == old(messages) + [Message("user", question), Message("assistant", Reply(question, retrieval, llm))]
      ensures Conversational(old(messages)) ==> Conversational(messages)
    {
      messages := messages + [Message("user", question)];
      var answer: string;
      match retrieval {
        case RetrievalFailed(e) =>
          answer := "Error: " + e;
        case Retrieved(docs) =>
          if |docs| == 0 {
            // st.stop() ends the script run; it is not an Exception, so no other entry follows
            messages := messages + [Message("assistant", DontKnow)];
            return;
          }
          var context := BuildContext(docs);
          match llm("Question: " + question + "\n\nContext:\n" + context) {
            case CompletionFailed(e) =>
              answer := "Error: " + e;
            case Answered(a) =>
              answer := a;
              var cites := CollectCites(docs);
              assert cites == Cites(docs);
              answer := answer + "\n\nSources: " + Join(Dedup(cites), "; ");
          }
      }
      messages := messages + [Message("assistant", answer)];
    }
  }

  /** The session's own history converts message for message: nothing is dropped. */
  lemma {:induction false} ConversationalHistoryKept(ms: seq<Message>)
    requires Conversational(ms)
    ensures |LcHistory(seq(|ms|, i requires 0 <= i < |ms| => AsEntry(ms[i])))| == |ms|
    decreases |ms|
  {
    var h := seq(|ms|, i requires 0 <= i < |ms| => AsEntry(ms[i]));
    if |ms| > 0 {
      var ms' := ms[..|ms| - 1];
      assert h[..|h| - 1] == seq(|ms'|, i requires 0 <= i < |ms'| => AsEntry(ms'[i]));
      ConversationalHistoryKept(ms');
    }
  }
}
