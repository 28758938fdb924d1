/** The answer pipeline of the `ResolveIaBlindado` class (bot.py): context retrieval,
    prompt construction, the Groq call with its one-shot retry, the Groq-then-Gemini
    fallback of `processar`, and the parsing of phase-1 verdicts.

    The two language-model services are foreign code: each is an oracle parameter that
    maps the request it is given to a `Reply`. */
module ResolveIa {
  import opened Wrappers
  import opened Strings

  /** What a foreign call gives back: the text of the completion, or an exception.
      A missing completion text (Python `None`) is the empty string: `processar`
      tests both with `not resposta_bruta` and treats them alike. */
  datatype Reply = Content(text: string) | Raised

  /** The keyword arguments of one `chat.completions.create` call. An argument the call
      does not pass is `None`; `stop=None` is the library default and is not recorded. */
  datatype GroqRequest = GroqRequest(
    model: string,
    prompt: string,
    temperature: real,
    maxCompletionTokens: Option<nat>,
    reasoningEffort: Option<string>,
    topP: Option<int>,
    stream: Option<bool>)

  /** The Groq client: what the service answers to each request. */
  type GroqClient = GroqRequest -> Reply

  /** The configured Gemini model: what `generate_content(prompt).text` gives for each prompt. */
  type GeminiModel = string -> Reply

  /** The fields `__init__` sets. `geminiOk` and `groqOk` record whether the SDK set-up
      raised; `groqModel` is the `GROQ_MODEL` environment value, absent when unset. */
  datatype Config = Config(geminiOk: bool, groqOk: bool, groqModel: Option<string>)

  /** The `inputs` dictionary of `processar`; an absent key is `None`. */
  datatype Inputs = Inputs(userInput: string, fase: Option<string>, prioridade: Option<string>)

  /** `inputs.get('prioridade', 'groq')`. */
  function Priority(inputs: Inputs): (p: string)
    ensures inputs.prioridade.None? ==> p == "groq"
    ensures inputs.prioridade.Some? ==> p == inputs.prioridade.value
  {
    inputs.prioridade.GetOr("groq")
  }

  // ---------------------------------------------------------------------------
  // Context retrieval and prompt construction

  /** The placeholder retriever `_buscar_rag`: a fixed text around the query. */
  function BuscarRag(query: string): (r: string)
    ensures r != []
    ensures StartsWith(r, "[CONTEXTO RAG]")
    ensures Occurs(r, query)
  {
    var head := "[CONTEXTO RAG] O usuário perguntou sobre: ";
    var r := head + query + ". (Aqui entraria o texto do PDF)";
    assert r[|head|..|head| + |query|] == query;
    assert OccursAt(r, query, |head|);
    r
  }

  /** A prompt template: fixed text with a hole for the context followed by a hole for
      the query. The wording is abbreviated to a few lines of each template. Each head is
      written as its first word or mark followed by the rest: the verifier reads the
      characters of a long literal only where it is split. */
  datatype Template = Template(head: string, middle: string, tail: string) {
    function Fill(contexto: string, query: string): string {
      head + contexto + middle + query + tail
    }
  }

  /** Phase 1: classify the statement with a single word. */
  const VerdictTemplate := Template(
    "ATUE" + " COMO UM CLASSIFICADOR LÓGICO DE QUESTÕES DO CEBRASPE.\n--- CONTEXTO (FONTE DE VERDADE) ---\n",
    "\n-----------------------------------\nINPUT DO USUÁRIO: \"",
    "\"\nSua resposta deve conter EXATAMENTE UMA PALAVRA.\n")

  /** Any other phase: dictate a model answer, verbalising the punctuation. */
  const DictationTemplate := Template(
    "#" + " PERSONA\nVocê é um Tutor Especialista no CACD 2026 (Diplomacia).\n--- CONTEXTO (FONTE DE VERDADE) ---\n",
    "\n-----------------------------------\n# MODO 2: TREINO DISCURSIVO E DITADO\nINPUT DO USUÁRIO:\n",
    "\n")

  /** `s` contains `a` and, after that occurrence, `b`. */
  ghost predicate OccursBefore(s: string, a: string, b: string) {
    exists i :: OccursAt(s, a, i) && Occurs(s[i + |a|..], b)
  }

  /** The filled template holds the context and, after it, the query, verbatim. */
  lemma FillHolds(t: Template, contexto: string, query: string)
    ensures StartsWith(t.Fill(contexto, query), t.head)
    ensures OccursBefore(t.Fill(contexto, query), contexto, query)
  {
    var r := t.Fill(contexto, query);
    var rest := t.middle + query + t.tail;
    assert r == t.head + contexto + rest;
    assert r[..|t.head|] == t.head;
    OccursInMiddle(t.head, contexto, rest);
    assert r[|t.head| + |contexto|..] == rest;
    OccursInMiddle(t.middle, query, t.tail);
  }

  /** `_montar_prompt`: phase `'1'` gets the verdict template, every other value the
      dictation template; both carry the context and then the query verbatim. */
  function MontarPrompt(query: string, contexto: string, fase: Option<string>): (r: string)
    ensures StartsWith(r, VerdictTemplate.head) <==> fase == Some("1")
    ensures StartsWith(r, DictationTemplate.head) <==> fase != Some("1")
    ensures OccursBefore(r, contexto, query)
  {
    if fase == Some("1") then
      var r := VerdictTemplate.Fill(contexto, query);
      FillHolds(VerdictTemplate, contexto, query);
      assert r[0] == r[..|VerdictTemplate.head|][0] == VerdictTemplate.head[0] == 'A';
      assert DictationTemplate.head[0] == '#';
      r
    else
      var r := DictationTemplate.Fill(contexto, query);
      FillHolds(DictationTemplate, contexto, query);
      assert r[0] == r[..|DictationTemplate.head|][0] == DictationTemplate.head[0] == '#';
      assert VerdictTemplate.head[0] == 'A';
      r
  }

  // ---------------------------------------------------------------------------
  // The Groq backend

  /** The model `_chamar_groq` falls back to when the configured one fails. */
  const FallbackModel := "llama-3.3-70b-versatile"

  /** What `_chamar_groq` returns when the fallback fails too, written in pieces for the
      same reason as the template heads. */
  const GroqFatal := "\U{26A0}\U{FE0F} Erro " + "Fatal: " + "Nem Gemini " + "nem Groq " + "responderam."

  /** The substring test that selects the reasoning-model profile. */
  predicate IsReasoningModel(model: string) {
    Contains(model, "oss") || Contains(model, "120b")
  }

  /** The first request of `_chamar_groq` for a configured model id. */
  function PrimaryRequest(model: string, prompt: string): (req: GroqRequest)
    ensures req.model == model && req.prompt == prompt
    ensures req.topP == Some(1) && req.stream == Some(false)
    ensures (Occurs(model, "oss") || Occurs(model, "120b")) <==>
            (req.temperature == 1.0 && req.maxCompletionTokens == Some(8192) && req.reasoningEffort == Some("medium"))
    ensures !(Occurs(model, "oss") || Occurs(model, "120b")) ==>
            req.temperature == 0.1 && req.maxCompletionTokens == Some(4096) && req.reasoningEffort == None
  {
    ContainsIff(model, "oss");
    ContainsIff(model, "120b");
    if IsReasoningModel(model) then
      GroqRequest(model, prompt, 1.0, Some(8192), Some("medium"), Some(1), Some(false))
    else
      GroqRequest(model, prompt, 0.1, Some(4096), None, Some(1), Some(false))
  }

  /** The retry request: the fixed model at temperature 0.3, other arguments left to the library. */
  function FallbackRequest(prompt: string): (req: GroqRequest)
    ensures req.model == FallbackModel && req.prompt == prompt && req.temperature == 0.3
    ensures req.maxCompletionTokens == None && req.reasoningEffort == None && req.topP == None && req.stream == None
    ensures forall model :: req != PrimaryRequest(model, prompt)
  {
    GroqRequest(FallbackModel, prompt, 0.3, None, None, None, None)
  }

  /** The gpt-oss model id gets the reasoning profile; the fallback model id does not. */
  lemma ProfileExamples(prompt: string)
    ensures PrimaryRequest("openai/gpt-oss-120b", prompt).reasoningEffort == Some("medium")
    ensures PrimaryRequest("openai/gpt-oss-120b", prompt).temperature == 1.0
    ensures PrimaryRequest(FallbackModel, prompt).temperature == 0.1
    ensures PrimaryRequest(FallbackModel, prompt).maxCompletionTokens == Some(4096)
  {
    var oss := "openai/gpt-oss-120b";
    assert oss[11..14] == "oss";
    assert OccursAt(oss, "oss", 11);
    CharAbsent(FallbackModel, "oss", 0);
    CharAbsent(FallbackModel, "120b", 0);
  }

  /** The text `_chamar_groq` returns and the requests it sent, in order. */
  datatype GroqRun = GroqRun(text: string, requests: seq<GroqRequest>)

  /** `_chamar_groq`. With a configured model id it sends the primary request; if that
      raises, or if no model id is configured (the substring test on `None` raises a
      `TypeError` inside the same `try`), it sends the fallback request once; if that
      raises as well it returns the fatal-error text. It never raises. */
  function ChamarGroq(groqModel: Option<string>, prompt: string, client: GroqClient): (run: GroqRun)
    ensures 1 <= |run.requests| <= 2
    ensures run.requests[0] == if groqModel.Some? then PrimaryRequest(groqModel.value, prompt) else FallbackRequest(prompt)
    ensures |run.requests| == 2 <==> groqModel.Some? && client(PrimaryRequest(groqModel.value, prompt)).Raised?
    ensures |run.requests| == 2 ==> run.requests[1] == FallbackRequest(prompt)
    ensures forall k :: 0 <= k < |run.requests| - 1 ==> client(run.requests[k]).Raised?
    ensures client(run.requests[|run.requests| - 1]).Content? ==> run.text == client(run.requests[|run.requests| - 1]).text
    ensures client(run.requests[|run.requests| - 1]).Raised? ==> run.text == GroqFatal
    ensures run.text == "" ==> client(run.requests[|run.requests| - 1]) == Content("")
  {
    var fallback := FallbackRequest(prompt);
    var retry :=
      match client(fallback)
      case Content(t) => t
      case Raised => GroqFatal;
    if groqModel.None? then
      GroqRun(retry, [fallback])
    else
      var primary := PrimaryRequest(groqModel.value, prompt);
      match client(primary)
      case Content(t) => GroqRun(t, [primary])
      case Raised => GroqRun(retry, [primary, fallback])
  }

  // ---------------------------------------------------------------------------
  // Phase-1 verdict parsing

  const VerdictCerto := "CERTO"
  const VerdictErrado := "ERRADO"
  const VerdictErro := "ERRO (Conteúdo não encontrado)"

  /** The warning put before a phase-1 answer that carries no verdict marker. */
  const OutOfPattern := "\U{26A0}\U{FE0F} Resposta fora do padrão:\n"

  ghost predicate SaysCerto(u: string) {
    Occurs(u, "VEREDITO: CERTO") || Occurs(u, "VEREDITO:CERTO")
  }

  ghost predicate SaysErrado(u: string) {
    Occurs(u, "VEREDITO: ERRADO") || Occurs(u, "VEREDITO:ERRADO")
  }

  /** Only the spaced form is accepted for ERRO. */
  ghost predicate SaysErro(u: string) {
    Occurs(u, "VEREDITO: ERRO")
  }

  /** The phase-1 parsing of `processar`: the markers are looked for in the upper-cased
      text in a fixed order, and exactly one of four answers comes out. */
  function Phase1Text(raw: string): (r: string)
    ensures r == VerdictCerto <==> SaysCerto(Upper(raw))
    ensures r == VerdictErrado <==> !SaysCerto(Upper(raw)) && SaysErrado(Upper(raw))
    ensures r == VerdictErro <==> !SaysCerto(Upper(raw)) && !SaysErrado(Upper(raw)) && SaysErro(Upper(raw))
    ensures r == OutOfPattern + raw <==> !SaysCerto(Upper(raw)) && !SaysErrado(Upper(raw)) && !SaysErro(Upper(raw))
  {
    var u := Upper(raw);
    ContainsIff(u, "VEREDITO: CERTO");
    ContainsIff(u, "VEREDITO:CERTO");
    ContainsIff(u, "VEREDITO: ERRADO");
    ContainsIff(u, "VEREDITO:ERRADO");
    ContainsIff(u, "VEREDITO: ERRO");
    assert (OutOfPattern + raw)[0] == '\U{26A0}';
    if Contains(u, "VEREDITO: CERTO") || Contains(u, "VEREDITO:CERTO") then VerdictCerto
    else if Contains(u, "VEREDITO: ERRADO") || Contains(u, "VEREDITO:ERRADO") then VerdictErrado
    else if Contains(u, "VEREDITO: ERRO") then VerdictErro
    else OutOfPattern + raw
  }

  /** The bare words the verdict template asks for carry no marker, so they come back
      behind the out-of-pattern warning. */
  lemma BareWordsOutOfPattern()
    ensures Phase1Text("CERTO") == OutOfPattern + "CERTO"
    ensures Phase1Text("ERRADO") == OutOfPattern + "ERRADO"
    ensures Phase1Text("ERRO") == OutOfPattern + "ERRO"
  {
    ShortWordNoMarker("CERTO");
    ShortWordNoMarker("ERRADO");
    ShortWordNoMarker("ERRO");
  }

  /** A text shorter than every marker holds none of them, whatever its case. */
  lemma ShortWordNoMarker(w: string)
    requires |w| < |"VEREDITO:ERRO"|
    ensures !SaysCerto(Upper(w)) && !SaysErrado(Upper(w)) && !SaysErro(Upper(w))
  {
    var u := Upper(w);
    TooShort(u, "VEREDITO: CERTO");
    TooShort(u, "VEREDITO:CERTO");
    TooShort(u, "VEREDITO: ERRADO");
    TooShort(u, "VEREDITO:ERRADO");
    TooShort(u, "VEREDITO: ERRO");
  }

  /** Unlike CERTO and ERRADO, ERRO is not accepted without the space after the colon. */
  lemma UnspacedErroOutOfPattern()
    ensures Phase1Text("VEREDITO:ERRO") == OutOfPattern + "VEREDITO:ERRO"
  {
    var w := "VEREDITO:ERRO";
    UpperWord(w, w);
    NoMarkerInUnspacedErro(Upper(w));
    NoMarkerPassesThrough(w);
  }

  /** A text with no marker comes back behind the warning. */
  lemma NoMarkerPassesThrough(raw: string)
    requires !SaysCerto(Upper(raw)) && !SaysErrado(Upper(raw)) && !SaysErro(Upper(raw))
    ensures Phase1Text(raw) == OutOfPattern + raw
  {
  }

  lemma NoMarkerInUnspacedErro(u: string)
    requires u == "VEREDITO:ERRO"
    ensures !SaysCerto(u) && !SaysErrado(u) && !SaysErro(u)
  {
    assert 'C' !in u && 'A' !in u;
    CharAbsent(u, "VEREDITO: CERTO", 10);
    CharAbsent(u, "VEREDITO:CERTO", 9);
    CharAbsent(u, "VEREDITO: ERRADO", 13);
    CharAbsent(u, "VEREDITO:ERRADO", 12);
    TooShort(u, "VEREDITO: ERRO");
  }

  /** Markers are matched on the upper-cased text. */
  lemma LowerCaseMarkerAccepted()
    ensures Phase1Text("veredito: errado") == VerdictErrado
  {
    var u := Upper("veredito: errado");
    UpperOfLowerMarker();
    SaysOnlyErrado(u);
  }

  lemma UpperOfLowerMarker()
    ensures Upper("veredito: errado") == "VEREDITO: ERRADO"
  {
    UpperWord("veredito: errado", "VEREDITO: ERRADO");
  }

  lemma SaysOnlyErrado(u: string)
    requires u == "VEREDITO: ERRADO"
    ensures SaysErrado(u) && !SaysCerto(u)
  {
    assert OccursAt(u, "VEREDITO: ERRADO", 0);
    assert 'C' !in u;
    CharAbsent(u, "VEREDITO: CERTO", 10);
    CharAbsent(u, "VEREDITO:CERTO", 9);
  }

  /** `Upper(w) == u`, checked letter by letter. */
  lemma UpperWord(w: string, u: string)
    requires |w| == |u| && forall i :: 0 <= i < |w| ==> UpperChar(w[i]) == u[i]
    ensures Upper(w) == u
  {
  }

  // ---------------------------------------------------------------------------
  // The fallback of `processar`

  /** A reply of `processar`: the text and the label of the backend that produced it. */
  datatype Answer = Answer(text: string, source: string)

  /** What `processar` does: return a pair, or let a Gemini exception escape. */
  datatype Outcome = Returned(answer: Answer) | GeminiRaised

  /** One call into a foreign service. */
  datatype Call = ToGroq(request: GroqRequest) | ToGemini(prompt: string)

  /** The outcome of `processar` with the foreign calls it made, in order. */
  datatype Run = Run(outcome: Outcome, calls: seq<Call>)

  const GroqLabel := "Groq \U{26A1}"
  const GeminiLabel := "Gemini \U{1F48E}"
  const NoMaterial := Answer("\U{26A0}\U{FE0F} Erro: Não encontrei material sobre isso na base de dados.", "Sistema")
  const Offline := Answer("Erro: IAs indisponíveis", "Offline")

  datatype Backend = GroqBackend | GeminiBackend

  function Label(b: Backend): string {
    match b
    case GroqBackend => GroqLabel
    case GeminiBackend => GeminiLabel
  }

  /** Whether `processar` calls Groq. */
  predicate GroqTried(cfg: Config, prioridade: string) {
    prioridade == "groq" && cfg.groqOk
  }

  /** The backends `processar` may try, in order: Groq only under the `'groq'` priority
      and when it is configured, then Gemini when it is configured. */
  function Enabled(cfg: Config, prioridade: string): (order: seq<Backend>)
    ensures GroqBackend in order <==> GroqTried(cfg, prioridade)
    ensures GeminiBackend in order <==> cfg.geminiOk
    ensures GroqBackend in order ==> order[0] == GroqBackend
    ensures |order| <= 2
    ensures forall i, j :: 0 <= i < j < |order| ==> order[i] != order[j]
  {
    (if GroqTried(cfg, prioridade) then [GroqBackend] else []) +
    (if cfg.geminiOk then [GeminiBackend] else [])
  }

  function GroqCalls(requests: seq<GroqRequest>): seq<Call> {
    seq(|requests|, k requires 0 <= k < |requests| => ToGroq(requests[k]))
  }

  /** One backend attempt: its reply and the calls it made. */
  datatype Attempt = Attempt(reply: Reply, calls: seq<Call>)

  function Try(b: Backend, cfg: Config, prompt: string, client: GroqClient, gemini: GeminiModel): Attempt {
    match b
    case GroqBackend =>
      var g := ChamarGroq(cfg.groqModel, prompt, client);
      Attempt(Content(g.text), GroqCalls(g.requests))
    case GeminiBackend =>
      Attempt(gemini(prompt), [ToGemini(prompt)])
  }

  /** `processar` wraps the Groq attempt in `try`/`except: pass`, but not the Gemini one. */
  predicate Guarded(b: Backend) {
    b == GroqBackend
  }

  /** Where the search for a text ended: a non-empty text and its label, nothing, or an
      exception that escaped. */
  datatype Raw = Got(text: string, source: string) | NoText | Escaped

  datatype Search = Search(raw: Raw, calls: seq<Call>)

  /** The reference fallback: try the backends in order; the first non-empty text wins
      and stops the search; an empty text, or an exception from a guarded backend, moves
      on; an exception from an unguarded backend ends the search. */
  function FirstText(order: seq<Backend>, cfg: Config, prompt: string, client: GroqClient, gemini: GeminiModel): (s: Search)
    ensures s.raw.Got? ==> s.raw.text != "" && exists k :: 0 <= k < |order| && s.raw.source == Label(order[k])
    ensures s.raw.Escaped? ==> exists k :: 0 <= k < |order| && !Guarded(order[k])
    ensures order == [] ==> s == Search(NoText, [])
    decreases |order|
  {
    if order == [] then Search(NoText, [])
    else
      var a := Try(order[0], cfg, prompt, client, gemini);
      if a.reply.Content? && a.reply.text != "" then Search(Got(a.reply.text, Label(order[0])), a.calls)
      else if a.reply.Raised? && !Guarded(order[0]) then Search(Escaped, a.calls)
      else
        var rest := FirstText(order[1..], cfg, prompt, client, gemini);
        Search(rest.raw, a.calls + rest.calls)
  }

  /** The parsing step of `processar`: phase `'1'` parses a verdict, any other phase
      keeps the text as it is. */
  function PostProcess(fase: Option<string>, raw: string, source: string): (a: Answer)
    ensures a.source == source
    ensures fase == Some("1") ==> a.text in [VerdictCerto, VerdictErrado, VerdictErro, OutOfPattern + raw]
    ensures fase != Some("1") ==> a.text == raw
  {
    if fase == Some("1") then Answer(Phase1Text(raw), source) else Answer(raw, source)
  }

  /** `processar` once the context is known: the early exit on an empty context, the
      prompt, the ordered fallback, the offline reply and the parsing. */
  function Pipeline(cfg: Config, contexto: string, query: string, fase: Option<string>, prioridade: string,
                    client: GroqClient, gemini: GeminiModel): (r: Run)
    ensures r.outcome == Returned(NoMaterial) <==> contexto == ""
    ensures contexto == "" ==> r.calls == []
  {
    if contexto == "" then Run(Returned(NoMaterial), [])
    else
      var prompt := MontarPrompt(query, contexto, fase);
      var search := FirstText(Enabled(cfg, prioridade), cfg, prompt, client, gemini);
      match search.raw
      case Got(text, source) => Run(Returned(PostProcess(fase, text, source)), search.calls)
      case NoText => Run(Returned(Offline), search.calls)
      case Escaped => Run(GeminiRaised, search.calls)
  }

  /** The text Groq gives, or the empty string when Groq is not tried. */
  function GroqText(cfg: Config, prioridade: string, prompt: string, client: GroqClient): string {
    if GroqTried(cfg, prioridade) then ChamarGroq(cfg.groqModel, prompt, client).text else ""
  }

  /** The fallback, unrolled over the two backends: the calls made and the outcome,
      case by case, as the straight-line code of `processar` has them. */
  lemma PipelineUnfolded(cfg: Config, contexto: string, query: string, fase: Option<string>, prioridade: string,
                         client: GroqClient, gemini: GeminiModel)
    requires contexto != ""
    ensures var prompt := MontarPrompt(query, contexto, fase);
            var groq := GroqText(cfg, prioridade, prompt, client);
            var run := Pipeline(cfg, contexto, query, fase, prioridade, client, gemini);
            && run.calls ==
               (if GroqTried(cfg, prioridade) then GroqCalls(ChamarGroq(cfg.groqModel, prompt, client).requests) else []) +
               (if groq == "" && cfg.geminiOk then [ToGemini(prompt)] else [])
            && run.outcome ==
               if groq != "" then Returned(PostProcess(fase, groq, GroqLabel))
               else if !cfg.geminiOk then Returned(Offline)
               else match gemini(prompt)
                    case Raised => GeminiRaised
                    case Content(t) => if t == "" then Returned(Offline) else Returned(PostProcess(fase, t, GeminiLabel))
  {
    var prompt := MontarPrompt(query, contexto, fase);
    FallbackUnfolded(cfg, prioridade, prompt, client, gemini);
  }

  /** The search over the enabled backends, unrolled: the calls and where it ended. */
  lemma FallbackUnfolded(cfg: Config, prioridade: string, prompt: string, client: GroqClient, gemini: GeminiModel)
    ensures var groq := GroqText(cfg, prioridade, prompt, client);
            var search := FirstText(Enabled(cfg, prioridade), cfg, prompt, client, gemini);
            && search.calls ==
               (if GroqTried(cfg, prioridade) then GroqCalls(ChamarGroq(cfg.groqModel, prompt, client).requests) else []) +
               (if groq == "" && cfg.geminiOk then [ToGemini(prompt)] else [])
            && search.raw ==
               if groq != "" then Got(groq, GroqLabel)
               else if !cfg.geminiOk then NoText
               else match gemini(prompt)
                    case Raised => Escaped
                    case Content(t) => if t == "" then NoText else Got(t, GeminiLabel)
  {
    var tail: seq<Backend> := if cfg.geminiOk then [GeminiBackend] else [];
    assert Enabled(cfg, prioridade) == (if GroqTried(cfg, prioridade) then [GroqBackend] + tail else tail);
    GeminiAttempt(cfg, prompt, client, gemini);
    GroqAttempt(tail, cfg, prompt, client, gemini);
  }

  /** The fallback over Gemini alone. */
  lemma GeminiAttempt(cfg: Config, prompt: string, client: GroqClient, gemini: GeminiModel)
    ensures FirstText([GeminiBackend], cfg, prompt, client, gemini) ==
            Search(match gemini(prompt)
                   case Raised => Escaped
                   case Content(t) => if t == "" then NoText else Got(t, GeminiLabel),
                   [ToGemini(prompt)])
  {
    assert [GeminiBackend][1..] == [];
  }

  /** The fallback with Groq first: its text wins when non-empty, and the search goes on
      after it otherwise. */
  lemma GroqAttempt(rest: seq<Backend>, cfg: Config, prompt: string, client: GroqClient, gemini: GeminiModel)
    ensures var g := ChamarGroq(cfg.groqModel, prompt, client);
            var next := FirstText(rest, cfg, prompt, client, gemini);
            FirstText([GroqBackend] + rest, cfg, prompt, client, gemini) ==
            if g.text != "" then Search(Got(g.text, GroqLabel), GroqCalls(g.requests))
            else Search(next.raw, GroqCalls(g.requests) + next.calls)
  {
    assert ([GroqBackend] + rest)[1..] == rest;
  }

  /** Under the placeholder retriever the early exit is never taken. */
  lemma StubNeverShortCircuits(cfg: Config, query: string, fase: Option<string>, prioridade: string,
                               client: GroqClient, gemini: GeminiModel)
    ensures Pipeline(cfg, BuscarRag(query), query, fase, prioridade, client, gemini).outcome != Returned(NoMaterial)
  {
    var contexto := BuscarRag(query);
    PipelineUnfolded(cfg, contexto, query, fase, prioridade, client, gemini);
  }

  /** Groq is called exactly when the context is non-empty, the priority is `'groq'`
      and Groq is configured. */
  lemma GroqCalledIff(cfg: Config, contexto: string, query: string, fase: Option<string>, prioridade: string,
                      client: GroqClient, gemini: GeminiModel)
    ensures var calls := Pipeline(cfg, contexto, query, fase, prioridade, client, gemini).calls;
            (exists k :: 0 <= k < |calls| && calls[k].ToGroq?) <==> contexto != "" && GroqTried(cfg, prioridade)
  {
    if contexto != "" {
      PipelineUnfolded(cfg, contexto, query, fase, prioridade, client, gemini);
      var prompt := MontarPrompt(query, contexto, fase);
      var calls := Pipeline(cfg, contexto, query, fase, prioridade, client, gemini).calls;
      if GroqTried(cfg, prioridade) {
        assert calls[0].ToGroq?;
      } else {
        assert forall k :: 0 <= k < |calls| ==> calls[k] == ToGemini(prompt);
      }
    }
  }

  /** Gemini is called exactly when the context is non-empty, Gemini is configured and
      Groq gave no text (not tried, or an empty completion). The fatal-error text of
      `_chamar_groq` is not empty, so it keeps Gemini from being called. */
  lemma GeminiCalledIff(cfg: Config, contexto: string, query: string, fase: Option<string>, prioridade: string,
                        client: GroqClient, gemini: GeminiModel)
    ensures var prompt := MontarPrompt(query, contexto, fase);
            var calls := Pipeline(cfg, contexto, query, fase, prioridade, client, gemini).calls;
            (exists k :: 0 <= k < |calls| && calls[k].ToGemini?) <==>
              contexto != "" && cfg.geminiOk && GroqText(cfg, prioridade, prompt, client) == ""
  {
    if contexto != "" {
      PipelineUnfolded(cfg, contexto, query, fase, prioridade, client, gemini);
      var prompt := MontarPrompt(query, contexto, fase);
      var calls := Pipeline(cfg, contexto, query, fase, prioridade, client, gemini).calls;
      var groqPart := if GroqTried(cfg, prioridade) then GroqCalls(ChamarGroq(cfg.groqModel, prompt, client).requests) else [];
      assert forall k :: 0 <= k < |groqPart| ==> groqPart[k].ToGroq?;
      if cfg.geminiOk && GroqText(cfg, prioridade, prompt, client) == "" {
        assert calls[|calls| - 1] == ToGemini(prompt);
      } else {
        assert calls == groqPart;
      }
    }
  }

  /** The offline pair comes back exactly when the context is non-empty, Groq gave no
      text, and Gemini is not configured or gave an empty text. */
  lemma OfflineIff(cfg: Config, contexto: string, query: string, fase: Option<string>, prioridade: string,
                   client: GroqClient, gemini: GeminiModel)
    ensures var prompt := MontarPrompt(query, contexto, fase);
            Pipeline(cfg, contexto, query, fase, prioridade, client, gemini).outcome == Returned(Offline) <==>
              contexto != "" && GroqText(cfg, prioridade, prompt, client) == "" &&
              (!cfg.geminiOk || gemini(prompt) == Content(""))
  {
    if contexto != "" {
      PipelineUnfolded(cfg, contexto, query, fase, prioridade, client, gemini);
    }
  }

  /** When every Groq request raises, the fatal-error text is the answer, labelled as
      Groq's, and Gemini is not called; in phase `'1'` that text carries no marker and
      comes back behind the out-of-pattern warning. */
  lemma GroqFatalBlocksGemini(cfg: Config, contexto: string, query: string, fase: Option<string>, prioridade: string,
                              client: GroqClient, gemini: GeminiModel)
    requires contexto != "" && GroqTried(cfg, prioridade)
    requires var reqs := ChamarGroq(cfg.groqModel, MontarPrompt(query, contexto, fase), client).requests;
             forall k :: 0 <= k < |reqs| ==> client(reqs[k]) == Raised
    ensures var run := Pipeline(cfg, contexto, query, fase, prioridade, client, gemini);
            && run.outcome == Returned(PostProcess(fase, GroqFatal, GroqLabel))
            && (forall k :: 0 <= k < |run.calls| ==> run.calls[k].ToGroq?)
            && (fase == Some("1") ==> run.outcome.answer.text == OutOfPattern + GroqFatal)
  {
    var prompt := MontarPrompt(query, contexto, fase);
    PipelineUnfolded(cfg, contexto, query, fase, prioridade, client, gemini);
    var g := ChamarGroq(cfg.groqModel, prompt, client);
    assert g.text == GroqFatal;
    assert GroqFatal != "";
    NoMarkerInFatal();
  }

  /** The fatal-error text holds no verdict marker: it has no `V` once upper-cased. */
  lemma NoMarkerInFatal()
    ensures !SaysCerto(Upper(GroqFatal)) && !SaysErrado(Upper(GroqFatal)) && !SaysErro(Upper(GroqFatal))
  {
    UpperAvoids(GroqFatal, 'V');
    NoMarkerWithoutV(Upper(GroqFatal));
  }

  /** Every marker starts with `V`, so a text without `V` holds none of them. */
  lemma NoMarkerWithoutV(u: string)
    requires 'V' !in u
    ensures !SaysCerto(u) && !SaysErrado(u) && !SaysErro(u)
  {
    CharAbsent(u, "VEREDITO: CERTO", 0);
    CharAbsent(u, "VEREDITO:CERTO", 0);
    CharAbsent(u, "VEREDITO: ERRADO", 0);
    CharAbsent(u, "VEREDITO:ERRADO", 0);
    CharAbsent(u, "VEREDITO: ERRO", 0);
  }

  /** An answer labelled with a backend is that backend's non-empty text, parsed in
      phase `'1'` and unchanged (not even trimmed) in any other phase. */
  lemma AnswerFromLabelledBackend(cfg: Config, contexto: string, query: string, fase: Option<string>, prioridade: string,
                                  client: GroqClient, gemini: GeminiModel)
    ensures var prompt := MontarPrompt(query, contexto, fase);
            var groq := GroqText(cfg, prioridade, prompt, client);
            var out := Pipeline(cfg, contexto, query, fase, prioridade, client, gemini).outcome;
            && (out.Returned? && out.answer.source == GroqLabel ==>
                  contexto != "" && GroqTried(cfg, prioridade) && groq != "" &&
                  out.answer.text == (if fase == Some("1") then Phase1Text(groq) else groq))
            && (out.Returned? && out.answer.source == GeminiLabel ==>
                  contexto != "" && cfg.geminiOk && groq == "" && gemini(prompt).Content? && gemini(prompt).text != "" &&
                  out.answer.text == (if fase == Some("1") then Phase1Text(gemini(prompt).text) else gemini(prompt).text))
  {
    if contexto != "" {
      PipelineUnfolded(cfg, contexto, query, fase, prioridade, client, gemini);
    }
  }

  /** `processar` after retrieval (lines 163-207), written as the straight-line code it is:
      the locals `resposta_bruta` and `modelo_usado` are reassigned by each attempt. */
  method Responder(cfg: Config, userInput: string, contexto: string, fase: Option<string>, prioridade: string,
                   client: GroqClient, gemini: GeminiModel)
    returns (outcome: Outcome, calls: seq<Call>)
    ensures Run(outcome, calls) == Pipeline(cfg, contexto, userInput, fase, prioridade, client, gemini)
  {
    calls := [];
    if contexto == "" {
      outcome := Returned(NoMaterial);
      return;
    }
    PipelineUnfolded(cfg, contexto, userInput, fase, prioridade, client, gemini);
    var promptFinal := MontarPrompt(userInput, contexto, fase);
    var respostaBruta := "";
    var modeloUsado := "";
    // `_chamar_groq` never raises, so the `except: pass` around it has nothing to catch.
    if GroqTried(cfg, prioridade) {
      var groq := ChamarGroq(cfg.groqModel, promptFinal, client);
      calls := calls + GroqCalls(groq.requests);
      respostaBruta := groq.text;
      modeloUsado := GroqLabel;
    }
    if respostaBruta == "" && cfg.geminiOk {
      calls := calls + [ToGemini(promptFinal)];
      var reply := gemini(promptFinal);
      if reply.Raised? {
        outcome := GeminiRaised;
        return;
      }
      respostaBruta := reply.text;
      modeloUsado := GeminiLabel;
    }
    if respostaBruta == "" {
      outcome := Returned(Offline);
      return;
    }
    if fase == Some("1") {
      outcome := Returned(Answer(Phase1Text(respostaBruta), modeloUsado));
    } else {
      outcome := Returned(Answer(respostaBruta, modeloUsado));
    }
  }

  /** `processar`: retrieve the context with the placeholder, then answer. */
  method Processar(cfg: Config, inputs: Inputs, client: GroqClient, gemini: GeminiModel)
    returns (outcome: Outcome, calls: seq<Call>)
    ensures Run(outcome, calls) ==
            Pipeline(cfg, BuscarRag(inputs.userInput), inputs.userInput, inputs.fase, Priority(inputs), client, gemini)
    ensures outcome != Returned(NoMaterial)
  {
    var contexto := BuscarRag(inputs.userInput);
    outcome, calls := Responder(cfg, inputs.userInput, contexto, inputs.fase, Priority(inputs), client, gemini);
    StubNeverShortCircuits(cfg, inputs.userInput, inputs.fase, Priority(inputs), client, gemini);
  }
}
