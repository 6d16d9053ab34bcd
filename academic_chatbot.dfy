/**
 * The academic chatbot: the knowledge base and the FAQs are merged into one
 * numbered list, a question that closely matches a stored question is
 * answered from the store, and anything else goes to the language model,
 * whose answer is refused when it quotes numbers found in no stored answer.
 *
 * The language model is not modelled: its reply arrives as a parameter
 * (None when the call raised). clean_text's Unicode normalisation and
 * character stripping is the parameter `normalize`; its final strip is Trim.
 */
module AcademicChatbot {
  import opened Wrappers
  import opened Strings
  import opened Seqs

  /** A row of table knowledge_base; category None when the row carries no category key. */
  datatype KbEntry = KbEntry(id: string, category: Option<string>, question: string, answer: string)

  /** A row of table faqs. */
  datatype Faq = Faq(id: string, question: string, answer: string)

  datatype Source = KnowledgeBase | Faqs

  /** An entry of the combined base. */
  datatype Entry = Entry(source: Source, id: string, question: string, answer: string, category: string)

  const DefaultCategory: string := "General"
  const FaqCategory: string := "FAQ"

  const NoInformation: string :=
    "No hay información disponible en este momento. Por favor, contacta a un agente humano."
  const Unsupported: string :=
    "Disculpa, no tengo información disponible para responder tu pregunta. ¿Te gustaría que escale tu consulta con un agente humano? Escribe 'Agente' para continuar."
  const ModelError: string :=
    "Ha ocurrido un error al procesar tu pregunta. Por favor, intenta nuevamente o escribe 'Agente' para hablar con un humano."

  // ---------- the combined base ----------

  /**
   * build_combined_knowledge_base's two loops: every knowledge_base row, in
   * order, then every faqs row, in order, plus the prompt text.
   */
  method BuildCombinedKnowledgeBase(kb: seq<KbEntry>, faqs: seq<Faq>, normalize: string -> string)
    returns (text: string, all: seq<Entry>)
    ensures |all| == |kb| + |faqs|
    ensures forall i :: 0 <= i < |kb| ==>
      all[i].source == KnowledgeBase && all[i].id == kb[i].id &&
      all[i].question == kb[i].question && all[i].answer == kb[i].answer &&
      all[i].category == kb[i].category.GetOr(DefaultCategory)
    ensures forall j :: 0 <= j < |faqs| ==>
      all[|kb| + j].source == Faqs && all[|kb| + j].id == faqs[j].id &&
      all[|kb| + j].question == faqs[j].question && all[|kb| + j].answer == faqs[j].answer &&
      all[|kb| + j].category == FaqCategory
    ensures text == KnowledgeText(all, normalize)
  {
    all := [];
    var i := 0;
    while i < |kb|
      invariant 0 <= i <= |kb| && |all| == i
      invariant forall k :: 0 <= k < i ==>
        all[k].source == KnowledgeBase && all[k].id == kb[k].id &&
        all[k].question == kb[k].question && all[k].answer == kb[k].answer &&
        all[k].category == kb[k].category.GetOr(DefaultCategory)
    {
      var e := kb[i];
      all := all + [Entry(KnowledgeBase, e.id, e.question, e.answer, e.category.GetOr(DefaultCategory))];
      i := i + 1;
    }
    var j := 0;
    while j < |faqs|
      invariant 0 <= j <= |faqs| && |all| == |kb| + j
      invariant forall k :: 0 <= k < |kb| ==>
        all[k].source == KnowledgeBase && all[k].id == kb[k].id &&
        all[k].question == kb[k].question && all[k].answer == kb[k].answer &&
        all[k].category == kb[k].category.GetOr(DefaultCategory)
      invariant forall k :: |kb| <= k < |all| ==>
        all[k].source == Faqs && all[k].id == faqs[k - |kb|].id &&
        all[k].question == faqs[k - |kb|].question && all[k].answer == faqs[k - |kb|].answer &&
        all[k].category == FaqCategory
    {
      var f := faqs[j];
      all := all + [Entry(Faqs, f.id, f.question, f.answer, FaqCategory)];
      j := j + 1;
    }
    text := KnowledgeText(all, normalize);
  }

  /** clean_text: normalisation, then strip. */
  function CleanText(normalize: string -> string, s: string): (r: string)
    ensures r == [] || (!IsSpace(r[0]) && !IsSpace(r[|r| - 1]))
  {
    Trim(normalize(s))
  }

  function Label(n: nat): string
  {
    "[ENTRADA " + NatToString(n) + "]"
  }

  /** The prompt block of the entry numbered n. */
  function Block(n: nat, e: Entry, normalize: string -> string): (r: string)
    ensures StartsWith(r, Label(n))
  {
    Label(n) + "\nPregunta: " + CleanText(normalize, e.question) + "\nRespuesta: " + CleanText(normalize, e.answer)
  }

  function Blocks(entries: seq<Entry>, normalize: string -> string): (r: seq<string>)
    ensures |r| == |entries|
    ensures forall i :: 0 <= i < |r| ==> r[i] == Block(i + 1, entries[i], normalize)
  {
    seq(|entries|, i requires 0 <= i < |entries| => Block(i + 1, entries[i], normalize))
  }

  /** The knowledge text: the blocks separated by a blank line. */
  function KnowledgeText(entries: seq<Entry>, normalize: string -> string): string
  {
    JoinWith(Blocks(entries, normalize), "\n\n")
  }

  /** Entry i of the combined base appears in the prompt text under the label i + 1. */
  lemma KnowledgeTextListsEntry(entries: seq<Entry>, normalize: string -> string, i: nat)
    requires i < |entries|
    ensures Contains(KnowledgeText(entries, normalize), Block(i + 1, entries[i], normalize))
    ensures StartsWith(Block(i + 1, entries[i], normalize), Label(i + 1))
  {
    JoinWithContains(Blocks(entries, normalize), "\n\n", i);
  }

  /** Different numbers give different labels, so the numbering is unambiguous. */
  lemma LabelInjective(a: nat, b: nat)
    ensures Label(a) == Label(b) ==> a == b
  {
    DigitsValueOfNatToString(a);
    DigitsValueOfNatToString(b);
    assert Label(a)[9..|Label(a)| - 1] == NatToString(a);
    assert Label(b)[9..|Label(b)| - 1] == NatToString(b);
  }

  // ---------- find_exact_match ----------

  /** The form in which questions are compared: lower-cased, then cleaned. */
  function Cleaned(normalize: string -> string, q: string): string
  {
    CleanText(normalize, Lower(q))
  }

  /** More than 70% of the words of both questions together are shared. */
  predicate Similar(u: string, q: string)
  {
    10 * |WordSet(u) * WordSet(q)| > 7 * |WordSet(u) + WordSet(q)|
  }

  /** Equal, or one contains the other and the word sets overlap by more than 70%. */
  predicate Qualifies(u: string, q: string)
  {
    u == q || ((Contains(u, q) || Contains(q, u)) && Similar(u, q))
  }

  /** The test find_exact_match applies to each entry. */
  function MatchesQuestion(normalize: string -> string, question: string): Entry -> bool
  {
    (e: Entry) => Qualifies(Cleaned(normalize, question), Cleaned(normalize, e.question))
  }

  /** find_exact_match: the answer of the first qualifying entry, if any. */
  function FindExactMatch(normalize: string -> string, question: string, entries: seq<Entry>): (r: Option<string>)
    ensures r.None? <==> forall k :: 0 <= k < |entries| ==> !MatchesQuestion(normalize, question)(entries[k])
    ensures r.Some? ==> exists k :: 0 <= k < |entries| && FirstMatchIs(normalize, question, entries, k, r.value)
  {
    match FirstFrom(entries, MatchesQuestion(normalize, question), 0)
    case None => None
    case Some(k) =>
      assert FirstMatchIs(normalize, question, entries, k, entries[k].answer);
      Some(entries[k].answer)
  }

  /** Entry k is the first whose question qualifies, and its answer is `answer`. */
  predicate FirstMatchIs(normalize: string -> string, question: string, entries: seq<Entry>, k: nat, answer: string)
    requires k < |entries|
  {
    MatchesQuestion(normalize, question)(entries[k]) && answer == entries[k].answer &&
    forall j :: 0 <= j < k ==> !MatchesQuestion(normalize, question)(entries[j])
  }

  /** A question whose cleaned form equals a stored one's is always matched. */
  lemma ExactQuestionMatches(normalize: string -> string, question: string, entries: seq<Entry>, k: nat)
    requires k < |entries| && Cleaned(normalize, question) == Cleaned(normalize, entries[k].question)
    ensures FindExactMatch(normalize, question, entries).Some?
  {
    assert MatchesQuestion(normalize, question)(entries[k]);
  }

  /**
   * The similarity ratio is only computed when the cleaned questions differ,
   * and then the union of their words is non-empty: the division never
   * divides by zero.
   */
  lemma SimilarityIsDefined(normalize: string -> string, question: string, stored: string)
    requires Cleaned(normalize, question) != Cleaned(normalize, stored)
    ensures |WordSet(Cleaned(normalize, question)) + WordSet(Cleaned(normalize, stored))| > 0
  {
    var u := Cleaned(normalize, question);
    var q := Cleaned(normalize, stored);
    var t := if u != [] then u else q;
    assert t != [] && !IsSpace(t[0]);
    assert Words(t)[0] in WordSet(t);
  }

  // ---------- the number check ----------

  /** Length of the run of digits starting at i. */
  function DigitRun(s: string, i: nat): (n: nat)
    requires i <= |s|
    ensures i + n <= |s|
    ensures forall k :: i <= k < i + n ==> IsDigit(s[k])
    ensures i + n == |s| || !IsDigit(s[i + n])
    decreases |s| - i
  {
    if i == |s| || !IsDigit(s[i]) then 0 else 1 + DigitRun(s, i + 1)
  }

  /**
   * re.findall(r"\d+:\d+|\d+", s[i..]): at each digit, the whole run of
   * digits, continued over a colon when another digit run follows it.
   */
  function DigitGroupsFrom(s: string, i: nat): (r: seq<string>)
    requires i <= |s|
    ensures forall k :: 0 <= k < |r| ==> r[k] != [] && IsDigit(r[k][0]) && Contains(s, r[k])
    ensures r == [] <==> forall k :: i <= k < |s| ==> !IsDigit(s[k])
    decreases |s| - i
  {
    if i == |s| then []
    else if !IsDigit(s[i]) then DigitGroupsFrom(s, i + 1)
    else
      var j := i + DigitRun(s, i);
      var end := if j + 1 < |s| && s[j] == ':' && IsDigit(s[j + 1]) then j + 1 + DigitRun(s, j + 1) else j;
      ContainsSlice(s, i, end);
      [s[i..end]] + DigitGroupsFrom(s, end)
  }

  /** The numbers the answer quotes; there are some exactly when it holds a digit. */
  function DigitGroups(s: string): (r: seq<string>)
    ensures r != [] <==> HasDigit(s)
    ensures forall k :: 0 <= k < |r| ==> r[k] != [] && IsDigit(r[k][0]) && Contains(s, r[k])
  {
    DigitGroupsFrom(s, 0)
  }

  predicate HasDigit(s: string)
  {
    exists k :: 0 <= k < |s| && IsDigit(s[k])
  }

  /** Some number of the answer occurs in the answer of some entry. */
  predicate Grounded(numbers: seq<string>, entries: seq<Entry>)
  {
    exists e, g :: e in entries && g in numbers && Contains(e.answer, g)
  }

  /** The check at the end of academic_chatbot: digits, none of whose numbers any stored answer holds. */
  predicate NumbersUnsupported(answer: string, entries: seq<Entry>)
  {
    HasDigit(answer) && DigitGroups(answer) != [] && !Grounded(DigitGroups(answer), entries)
  }

  /** What academic_chatbot answers with, by the path that produced it. */
  datatype Reply =
    | NoKnowledge            // the combined base is empty
    | FromStore(answer: string)
    | ModelFailed            // the model call raised
    | Refused                // the model quoted numbers no stored answer holds
    | FromModel(answer: string)
  {
    /** The "answer" field of the response. */
    function Text(): string
    {
      match this
      case NoKnowledge => NoInformation
      case FromStore(a) => a
      case ModelFailed => ModelError
      case Refused => Unsupported
      case FromModel(a) => a
    }
  }

  /** The stored answer that bypasses the model: a match whose answer is not empty. */
  function StoredAnswer(normalize: string -> string, question: string, entries: seq<Entry>): Option<string>
  {
    var exact := FindExactMatch(normalize, question, entries);
    if exact.Some? && exact.value != [] then exact else None
  }

  /** academic_chatbot once the combined base is built; `model` is the model's reply, None when the call raised. */
  function Chatbot(normalize: string -> string, question: string, entries: seq<Entry>, model: Option<string>): (r: Reply)
    ensures r.NoKnowledge? <==> entries == []
    ensures (r.NoKnowledge? || r.FromStore?) <==> (entries == [] || StoredAnswer(normalize, question, entries).Some?)
    ensures r.FromStore? ==> r.answer != []
    ensures r.FromStore? ==> exists k :: 0 <= k < |entries| && FirstMatchIs(normalize, question, entries, k, r.answer)
    ensures r.ModelFailed? <==> entries != [] && StoredAnswer(normalize, question, entries).None? && model.None?
    ensures r.FromModel? ==> model.Some? && r.answer == Trim(model.value)
    ensures r.FromModel? ==> !HasDigit(r.answer) || Grounded(DigitGroups(r.answer), entries)
    ensures r.Refused? ==> model.Some? && HasDigit(Trim(model.value))
    ensures r.Refused? ==> !Grounded(DigitGroups(Trim(model.value)), entries)
  {
    if entries == [] then NoKnowledge
    else
      var stored := StoredAnswer(normalize, question, entries);
      if stored.Some? then FromStore(stored.value)
      else if model.None? then ModelFailed
      else
        var answer := Trim(model.value);
        if NumbersUnsupported(answer, entries) then Refused else FromModel(answer)
  }

  /** Neither the empty base nor a stored answer depends on the model's reply. */
  lemma {:induction false} BypassIgnoresModel(normalize: string -> string, question: string, entries: seq<Entry>,
                                              m1: Option<string>, m2: Option<string>)
    requires entries == [] || StoredAnswer(normalize, question, entries).Some?
    ensures Chatbot(normalize, question, entries, m1) == Chatbot(normalize, question, entries, m2)
  {
  }

  /** A model answer without digits is passed through, trimmed. */
  lemma DigitFreeAnswerKept(normalize: string -> string, question: string, entries: seq<Entry>, raw: string)
    requires entries != [] && StoredAnswer(normalize, question, entries).None?
    requires forall k :: 0 <= k < |Trim(raw)| ==> !IsDigit(Trim(raw)[k])
    ensures Chatbot(normalize, question, entries, Some(raw)) == FromModel(Trim(raw))
  {
  }
}
