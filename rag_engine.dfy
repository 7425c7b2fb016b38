/**
 * The request logic of the retrieval-augmented answering pipeline
 * (`RAGPipeline` in src/rag_engine.py): keep the search hits that score above
 * the relevance threshold, pull the answer text out of each hit's payload,
 * join it into a bulleted context, render the chat prompt, and turn what the
 * language model does into the final answer string.
 *
 * The embedding model, the vector store and the language model are oracles:
 * the pipeline holds them as function-valued constants, and a ghost log
 * records every prompt handed to the language model.
 */
module RagEngine {
  import opened Wrappers
  import opened Strings

  /** A hit must score strictly above this to be kept. */
  const RelevanceThreshold: real := 0.35
  /** The number of candidates requested from the vector store. */
  const DefaultTopK: nat := 3
  const CollectionName: string := "qa_rag_data_science"
  /** The embedding model encodes questions with this prefix. */
  const QueryPrefix: string := "query: "

  /** The answer when retrieval finds nothing usable. */
  const Refusal: string := "Xin lỗi, tôi không tìm thấy thông tin phù hợp trong cơ sở dữ liệu để trả lời câu hỏi này."
  /** Put in front of the exception message when generation fails. */
  const GenerationErrorPrefix: string := "Lỗi sinh câu trả lời: "

  /** The payload fields that may hold the passage text, in the order they are tried. */
  const TextAliases: seq<string> := ["answer", "tra_loi", "text"]

  /** The fixed parts of the prompt: ChatML turn markers, the policy instruction, and the labels before the context and the question. */
  const SystemOpening: string := "<|im_start|>system\n"
  const Instruction: string :=
    "Bạn là một trợ lý AI chuyên về Data Science. Nhiệm vụ của bạn là trả lời câu hỏi dựa trên thông tin được cung cấp trong phần NGỮ CẢNH.\n"
    + "Nếu thông tin không có trong ngữ cảnh, hãy nói \"Tôi không biết\". Không được bịa đặt thông tin.\n\n"
  const ContextHeading: string := "NGỮ CẢNH:\n"
  const TurnEnd: string := "\n<|im_end|>\n"
  const UserOpening: string := "<|im_start|>user\n"
  const QuestionLabel: string := "Câu hỏi: "
  const AssistantOpening: string := "<|im_start|>assistant\n"

  /** A payload value is a string; a missing field reads as "". */
  type Payload = map<string, string>

  /** One hit of a nearest-neighbour search. */
  datatype ScoredPoint = ScoredPoint(score: real, payload: Payload)

  /** What encoding the query and searching the collection give: the ranked hits, or the message of the exception either raised. */
  datatype SearchOutcome = Points(points: seq<ScoredPoint>) | SearchRaised(message: string)

  /** What `llm.invoke` does: return a plain string, return a message object with `.content`, or raise. */
  datatype Invocation =
    | ReturnedText(text: string)
    | ReturnedMessage(content: string)
    | InvokeRaised(message: string)

  // ---------------------------------------------------------------------
  // Relevance filter

  /** The hits whose score is strictly above the threshold, in their original order. */
  function Relevant(points: seq<ScoredPoint>): (kept: seq<ScoredPoint>)
    ensures forall p :: p in kept <==> p in points && p.score > RelevanceThreshold
    ensures |kept| <= |points|
  {
    if points == [] then []
    else (if points[0].score > RelevanceThreshold then [points[0]] else []) + Relevant(points[1..])
  }

  /** `r` is `s` with some elements left out and the rest in the same order. */
  ghost predicate IsSubsequence<T>(r: seq<T>, s: seq<T>)
    decreases |s|
  {
    r == [] || (s != [] && ((r[0] == s[0] && IsSubsequence(r[1..], s[1..])) || IsSubsequence(r, s[1..])))
  }

  /** Filtering keeps order: the kept hits are a subsequence of the search result. */
  lemma {:induction false} RelevantIsSubsequence(points: seq<ScoredPoint>)
    ensures IsSubsequence(Relevant(points), points)
  {
    if points != [] {
      var kept, rest := Relevant(points), Relevant(points[1..]);
      RelevantIsSubsequence(points[1..]);
      if points[0].score > RelevanceThreshold {
        assert kept == [points[0]] + rest;
        assert kept[0] == points[0] && kept[1..] == rest;
      } else {
        assert kept == rest;
      }
    }
  }

  /** Filtering works hit by hit: filtering a concatenation is concatenating the filtered parts. */
  lemma {:induction false} RelevantAppend(a: seq<ScoredPoint>, b: seq<ScoredPoint>)
    ensures Relevant(a + b) == Relevant(a) + Relevant(b)
  {
    if a != [] {
      assert (a + b)[1..] == a[1..] + b;
      RelevantAppend(a[1..], b);
    } else {
      assert a + b == b;
    }
  }

  /** When every hit passes, the filter returns the search result unchanged. */
  lemma {:induction false} RelevantAllPass(points: seq<ScoredPoint>)
    requires forall i :: 0 <= i < |points| ==> points[i].score > RelevanceThreshold
    ensures Relevant(points) == points
  {
    if points != [] {
      RelevantAllPass(points[1..]);
    }
  }

  // ---------------------------------------------------------------------
  // Context assembly

  /** `payload.get(key)`, where both a missing field and an empty one are falsy. */
  function Lookup(payload: Payload, key: string): (value: string)
    ensures key in payload ==> value == payload[key]
    ensures key !in payload ==> value == ""
  {
    if key in payload then payload[key] else ""
  }

  /** The passage text of a payload: `answer`, else `tra_loi`, else `text`, skipping empty fields. */
  function PayloadContent(payload: Payload): (content: string)
    ensures content != "" ==> content in payload.Values
  {
    var answer := Lookup(payload, "answer");
    if answer != "" then answer
    else
      var traLoi := Lookup(payload, "tra_loi");
      if traLoi != "" then traLoi
      else Lookup(payload, "text")
  }

  /** The passage text is the first non-empty alias field in priority order, and "" only when all are empty. */
  lemma PayloadContentIsFirstNonEmpty(payload: Payload)
    ensures PayloadContent(payload) == "" <==> forall i :: 0 <= i < |TextAliases| ==> Lookup(payload, TextAliases[i]) == ""
    ensures PayloadContent(payload) != "" ==>
      exists i :: 0 <= i < |TextAliases| && PayloadContent(payload) == Lookup(payload, TextAliases[i])
        && forall j :: 0 <= j < i ==> Lookup(payload, TextAliases[j]) == ""
  {
    assert Lookup(payload, TextAliases[0]) == Lookup(payload, "answer");
    assert Lookup(payload, TextAliases[1]) == Lookup(payload, "tra_loi");
    assert Lookup(payload, TextAliases[2]) == Lookup(payload, "text");
  }

  /** The context line one hit contributes: none when its payload has no text. */
  function LineOf(p: ScoredPoint): (lines: seq<string>)
    ensures |lines| <= 1
    ensures lines == [] <==> PayloadContent(p.payload) == ""
  {
    var content := PayloadContent(p.payload);
    if content != "" then ["- " + content] else []
  }

  /** The context lines of the hits, in retrieval order (built from the back, as the loop appends). */
  function ContextLines(hits: seq<ScoredPoint>): (lines: seq<string>)
    ensures |lines| <= |hits|
  {
    if hits == [] then [] else ContextLines(hits[..|hits| - 1]) + LineOf(hits[|hits| - 1])
  }

  /** The context block: the lines joined with newlines. */
  function ContextBlock(hits: seq<ScoredPoint>): (context: string)
    ensures context == "" <==> NoContent(hits)
  {
    NoContentNoLines(hits);
    ContextLinesAreContents(hits);
    JoinLinesEmpty(ContextLines(hits));
    JoinLines(ContextLines(hits))
  }

  /** No retrieved payload has any text. */
  predicate NoContent(hits: seq<ScoredPoint>) {
    forall i :: 0 <= i < |hits| ==> PayloadContent(hits[i].payload) == ""
  }

  /** There are no context lines exactly when no hit has text. */
  lemma {:induction false} NoContentNoLines(hits: seq<ScoredPoint>)
    ensures ContextLines(hits) == [] <==> NoContent(hits)
  {
    if hits != [] {
      var init, last := hits[..|hits| - 1], hits[|hits| - 1];
      NoContentNoLines(init);
      assert |ContextLines(hits)| == |ContextLines(init)| + |LineOf(last)|;
      if NoContent(hits) {
        forall i | 0 <= i < |init| ensures PayloadContent(init[i].payload) == "" {
          assert init[i] == hits[i];
        }
      } else if NoContent(init) {
        assert forall i :: 0 <= i < |init| ==> init[i] == hits[i];
        var k :| 0 <= k < |hits| && PayloadContent(hits[k].payload) != "";
        assert k == |hits| - 1;
      }
    }
  }

  /** The hits whose payload has text, in retrieval order. */
  function WithContent(hits: seq<ScoredPoint>): (kept: seq<ScoredPoint>)
    ensures forall p :: p in kept <==> p in hits && PayloadContent(p.payload) != ""
    ensures |kept| <= |hits|
  {
    if hits == [] then []
    else (if PayloadContent(hits[0].payload) != "" then [hits[0]] else []) + WithContent(hits[1..])
  }

  lemma {:induction false} WithContentAppend(a: seq<ScoredPoint>, b: seq<ScoredPoint>)
    ensures WithContent(a + b) == WithContent(a) + WithContent(b)
  {
    if a == [] {
      assert a + b == b;
    } else {
      assert (a + b)[1..] == a[1..] + b;
      WithContentAppend(a[1..], b);
    }
  }

  /** `lines` are the hits `kept`, one line each and in order, each as `"- "` followed by its passage text. */
  ghost predicate Bulleted(lines: seq<string>, kept: seq<ScoredPoint>) {
    |lines| == |kept| && forall i :: 0 <= i < |kept| ==> lines[i] == "- " + PayloadContent(kept[i].payload)
  }

  lemma BulletedAppend(lines1: seq<string>, kept1: seq<ScoredPoint>, lines2: seq<string>, kept2: seq<ScoredPoint>)
    requires Bulleted(lines1, kept1) && Bulleted(lines2, kept2)
    ensures Bulleted(lines1 + lines2, kept1 + kept2)
  {
  }

  /** The line of one hit is the bullet of that hit when it has text, and nothing otherwise. */
  lemma BulletedOne(p: ScoredPoint)
    ensures Bulleted(LineOf(p), WithContent([p]))
  {
  }

  /**
   * The context lines are exactly the hits with text, each as `"- "` followed
   * by its passage text, one line per such hit and in retrieval order.
   */
  lemma {:induction false} ContextLinesAreContents(hits: seq<ScoredPoint>)
    ensures Bulleted(ContextLines(hits), WithContent(hits))
  {
    if hits != [] {
      var init, last := hits[..|hits| - 1], hits[|hits| - 1];
      ContextLinesAreContents(init);
      assert hits == init + [last];
      WithContentAppend(init, [last]);
      BulletedOne(last);
      BulletedAppend(ContextLines(init), WithContent(init), LineOf(last), WithContent([last]));
    }
  }

  /** The text of every hit that has text appears, as its `"- "` line, in the context. */
  lemma PassageInContext(hits: seq<ScoredPoint>, j: nat)
    requires j < |hits| && PayloadContent(hits[j].payload) != ""
    ensures Occurs("- " + PayloadContent(hits[j].payload), ContextBlock(hits))
  {
    var kept := WithContent(hits);
    ContextLinesAreContents(hits);
    assert hits[j] in kept;
    var i :| 0 <= i < |kept| && kept[i] == hits[j];
    JoinLinesContains(ContextLines(hits), i);
  }

  /** ... and so in the prompt the model is given. */
  lemma PassageInPrompt(hits: seq<ScoredPoint>, query: string, j: nat)
    requires j < |hits| && PayloadContent(hits[j].payload) != ""
    ensures Occurs("- " + PayloadContent(hits[j].payload), Prompt(ContextBlock(hits), query))
  {
    PassageInContext(hits, j);
    OccursAfterPrefix("- " + PayloadContent(hits[j].payload), SystemOpening + Instruction + ContextHeading,
      ContextBlock(hits), Prompt(ContextBlock(hits), query));
  }

  /** Lines come out in retrieval order: the lines of a concatenation are the concatenated lines. */
  lemma {:induction false} ContextLinesAppend(a: seq<ScoredPoint>, b: seq<ScoredPoint>)
    ensures ContextLines(a + b) == ContextLines(a) + ContextLines(b)
    decreases |b|
  {
    if b == [] {
      assert a + b == a;
    } else {
      var init, last := b[..|b| - 1], b[|b| - 1];
      assert (a + b)[..|a + b| - 1] == a + init;
      assert (a + b)[|a + b| - 1] == last;
      ContextLinesAppend(a, init);
    }
  }

  /** When no passage text holds a newline, splitting the context at newlines gives back exactly its lines. */
  lemma ContextSplitsIntoLines(hits: seq<ScoredPoint>)
    requires exists i :: 0 <= i < |hits| && PayloadContent(hits[i].payload) != ""
    requires forall i :: 0 <= i < |hits| ==> '\n' !in PayloadContent(hits[i].payload)
    ensures SplitLines(ContextBlock(hits)) == ContextLines(hits)
  {
    NoContentNoLines(hits);
    LinesHaveNoNewline(hits);
    SplitJoinLines(ContextLines(hits));
  }

  lemma {:induction false} LinesHaveNoNewline(hits: seq<ScoredPoint>)
    requires forall i :: 0 <= i < |hits| ==> '\n' !in PayloadContent(hits[i].payload)
    ensures forall l :: l in ContextLines(hits) ==> '\n' !in l
  {
    if hits != [] {
      var init := hits[..|hits| - 1];
      assert forall i :: 0 <= i < |init| ==> init[i] == hits[i];
      LinesHaveNoNewline(init);
    }
  }

  /** The context-building loop: one `"- "` line per hit with text, then the lines joined with newlines. */
  method AssembleContext(hits: seq<ScoredPoint>) returns (contextStr: string)
    ensures contextStr == ContextBlock(hits)
  {
    var contextTexts: seq<string> := [];
    for i := 0 to |hits|
      invariant contextTexts == ContextLines(hits[..i])
    {
      var content := PayloadContent(hits[i].payload);
      if content != "" {
        contextTexts := contextTexts + ["- " + content];
      }
      assert hits[..i + 1][..i] == hits[..i];
    }
    assert hits[..|hits|] == hits;
    contextStr := JoinLines(contextTexts);
  }

  // ---------------------------------------------------------------------
  // Prompt

  /** The chat prompt: a system turn ending in the context, a user turn with the question, an open assistant turn. */
  function Prompt(context: string, query: string): (prompt: string)
    ensures SystemOpening + Instruction + ContextHeading + context <= prompt
    ensures SystemOpening + Instruction + ContextHeading + context + TurnEnd + UserOpening + QuestionLabel + query <= prompt
    ensures |prompt| == |SystemOpening + Instruction + ContextHeading| + |context| + |TurnEnd|
      + |UserOpening| + |QuestionLabel| + |query| + |TurnEnd| + |AssistantOpening|
    ensures prompt[|prompt| - |TurnEnd + AssistantOpening|..] == TurnEnd + AssistantOpening
  {
    var head := SystemOpening + Instruction + ContextHeading + context;
    var user := head + TurnEnd + UserOpening + QuestionLabel + query;
    var prompt := user + TurnEnd + AssistantOpening;
    PrefixOfJoin(head, TurnEnd + UserOpening + QuestionLabel + query + TurnEnd + AssistantOpening);
    PrefixOfJoin(user, TurnEnd + AssistantOpening);
    prompt
  }

  lemma PrefixOfJoin(a: string, b: string)
    ensures a <= a + b
    ensures (a + b)[|a|..] == b
  {
  }

  /** Given the length of the context, the prompt determines both the context and the question. */
  lemma PromptDeterminesInputs(c1: string, q1: string, c2: string, q2: string)
    requires |c1| == |c2|
    requires Prompt(c1, q1) == Prompt(c2, q2)
    ensures c1 == c2 && q1 == q2
  {
    var head := SystemOpening + Instruction + ContextHeading;
    PrefixCancel(head, c1, c2, Prompt(c1, q1));
    var upToQuestion := head + c1 + TurnEnd + UserOpening + QuestionLabel;
    PrefixCancel(upToQuestion, q1, q2, Prompt(c1, q1));
  }

  /** Two prefixes of one string that share a start and have the same length are equal. */
  lemma PrefixCancel(a: string, b1: string, b2: string, s: string)
    requires a + b1 <= s && a + b2 <= s && |b1| == |b2|
    ensures b1 == b2
  {
    assert a + b1 == s[..|a| + |b1|] == a + b2;
    assert b1 == (a + b1)[|a|..] && b2 == (a + b2)[|a|..];
  }

  // ---------------------------------------------------------------------
  // Generation outcome

  /** The answer from one language-model call: the stripped text, or the error prefix and the exception message. */
  function AnswerFrom(invocation: Invocation): (answer: string)
    ensures invocation.InvokeRaised? ==>
      GenerationErrorPrefix <= answer && answer[|GenerationErrorPrefix|..] == invocation.message
    ensures invocation.ReturnedText? ==> answer == Strip(invocation.text)
    ensures invocation.ReturnedMessage? ==> answer == Strip(invocation.content)
    ensures !invocation.InvokeRaised? ==> IsStripped(answer)
  {
    match invocation
    case ReturnedMessage(content) => Strip(content)
    case ReturnedText(text) => Strip(text)
    case InvokeRaised(message) => GenerationErrorPrefix + message
  }

  /**
   * The pipeline, with its collaborators fixed at construction: `search`
   * stands for encoding a text and querying the collection with a limit,
   * `llm` for `llm.invoke`. `prompts` logs every call of `llm`.
   */
  class RagPipeline {
    const collectionName: string
    const search: (string, nat) -> SearchOutcome
    const llm: string -> Invocation
    ghost var prompts: seq<string>

    constructor (search: (string, nat) -> SearchOutcome, llm: string -> Invocation)
      ensures collectionName == CollectionName
      ensures this.search == search && this.llm == llm
      ensures prompts == []
    {
      collectionName := CollectionName;
      this.search := search;
      this.llm := llm;
      prompts := [];
    }

    /** The relevant hits for the question, or None when there are none or the search raised. */
    function RetrieveDocuments(query: string, topK: nat): (found: Option<seq<ScoredPoint>>)
      ensures found.None? <==>
        search(QueryPrefix + query, topK).SearchRaised?
        || forall i :: 0 <= i < |search(QueryPrefix + query, topK).points| ==>
             search(QueryPrefix + query, topK).points[i].score <= RelevanceThreshold
      ensures found.Some? ==>
        && search(QueryPrefix + query, topK).Points?
        && found.value == Relevant(search(QueryPrefix + query, topK).points)
        && found.value != []
        && (forall i :: 0 <= i < |found.value| ==> found.value[i].score > RelevanceThreshold)
        && IsSubsequence(found.value, search(QueryPrefix + query, topK).points)
    {
      match search(QueryPrefix + query, topK)
      case SearchRaised(_) => None
      case Points(points) =>
        var validResults := Relevant(points);
        RelevantIsSubsequence(points);
        assert validResults == [] <==> forall i :: 0 <= i < |points| ==> points[i].score <= RelevanceThreshold by {
          if validResults != [] {
            assert validResults[0] in points;
          }
        }
        assert forall i :: 0 <= i < |validResults| ==> validResults[i] in points;
        if validResults == [] then None else Some(validResults)
    }

    /**
     * Answer a question: refuse without calling the model when retrieval
     * finds nothing, otherwise assemble the context, render the prompt and
     * make exactly one model call.
     */
    method GenerateAnswer(query: string) returns (answer: string)
      modifies this
      ensures match RetrieveDocuments(query, DefaultTopK)
        case None => answer == Refusal && prompts == old(prompts)
        case Some(hits) =>
          var prompt := Prompt(ContextBlock(hits), query);
          prompts == old(prompts) + [prompt] && answer == AnswerFrom(llm(prompt))
      ensures RetrieveDocuments(query, DefaultTopK).Some? && NoContent(RetrieveDocuments(query, DefaultTopK).value) ==>
        prompts == old(prompts) + [Prompt("", query)]
    {
      var results := RetrieveDocuments(query, DefaultTopK);
      // Retrieval never yields an empty list, so `not results` means None.
      if results.None? {
        return Refusal;
      }
      var contextStr := AssembleContext(results.value);
      var prompt := Prompt(contextStr, query);
      prompts := prompts + [prompt];
      answer := AnswerFrom(llm(prompt));
    }
  }
}
