# resolve.ia — a Dafny model of the answer pipeline and the bot state

resolve.ia is a Telegram voice assistant for exam practice. A voice question is
transcribed, sent with some retrieved context to a language model (Groq or Gemini),
and answered in text and speech. This project models the two sequential pieces at its
core and proves properties of them:

- **`ResolveIaBlindado` (bot.py), module `ResolveIa` in `bot.dfy`.**
  - The placeholder retriever `_buscar_rag` and the prompt builder `_montar_prompt`.
  - The Groq call `_chamar_groq`: the parameter profile chosen by a substring test on
    the model id, and the one retry with a fixed model.
  - `processar`: the early exit on an empty context, Groq first under the `'groq'`
    priority, Gemini only when no text was obtained, the offline reply, and the phase-1
    verdict parsing.
  - The two services are oracles: a Groq client maps each request (model, prompt,
    temperature, token budget, reasoning effort, top-p, stream) to a reply, and the
    Gemini model maps each prompt to a reply. A reply is a text or an exception.
    `processar` returns the pair it computes, or lets a Gemini exception escape; the
    model also records the foreign calls made, in order, so that "Gemini is never
    called" can be stated.
  - `Pipeline` is the reference meaning: an ordered fallback over the enabled backends,
    in which the first non-empty text wins. The methods `Responder` and `Processar`
    follow the source's straight-line code, which reassigns `resposta_bruta` and
    `modelo_usado`, and are proved equal to it.
- **`BotState` and the helpers of main.py, module `BotMain` in `main.dfy`.**
  - The class with its fields and the event log. The log is a newest-first list capped
    at 30 entries.
  - The state effects of `/fase1` and `/fase2`, and the engine label and last event
    shown by `/status`.
  - The output path and the ffmpeg binary search of `converter_audio_nativo`, with path
    existence and the ffmpeg run as oracles.
- `strings.dfy` (module `Strings`) holds Python's `in`, `upper()` and `replace()` on
  strings. `wrappers.dfy` holds `Option`, used for Python's `None`.

Behaviour of the code worth noting:
- A priority other than `'groq'` does not reorder the backends; it skips Groq.
- The fatal-error text of `_chamar_groq` is not empty, so it counts as an answer and
  Gemini is not tried after it.
- The offline reply is the fixed pair `("Erro: IAs indisponíveis", "Offline")` and lists
  no diagnostics.
- A Gemini exception is not caught by `processar`.
- A phase-2 text is returned without trimming.
- For ERRO only the spaced marker `VEREDITO: ERRO` is accepted.
- The verdict template asks for the bare words CERTO, ERRADO or ERRO, but the parser
  looks for `VEREDITO:` markers. So an answer that follows the template always comes
  back behind the out-of-pattern warning (`BareWordsOutOfPattern`).

## Model

| member | source | states |
|---|---|---|
| `Strings.ContainsIff` | bot.py:194-198 | Python's substring test, computed by scanning start positions, holds exactly when the pattern occurs at some index |
| `Strings.Upper` | bot.py:191 | upper-casing keeps the length and maps each character by itself: ASCII a-z to A-Z, dotless i to I, other characters unchanged |
| `Strings.ReplaceAll` | main.py:63 | Python's `replace`, scanning from the left without overlaps; replacing by a text of the same length (`.ogg` by `.wav`) keeps the length |
| `Strings.ReplaceAllAbsent` | main.py:63 | with no occurrence of the searched text, `replace` returns its input |
| `ResolveIa.Priority` | bot.py:159 | a missing priority key gives `'groq'`; a present one is taken as it is |
| `ResolveIa.BuscarRag` | bot.py:33-38 | the placeholder context is never empty, starts with `[CONTEXTO RAG]` and contains the query |
| `ResolveIa.MontarPrompt` | bot.py:40-101 | the prompt starts with the verdict template exactly when the phase is `'1'`, and with the dictation template otherwise; it holds the context and, after it, the query, verbatim |
| `ResolveIa.PrimaryRequest` | bot.py:112-137 | temperature 1.0, 8192 tokens and reasoning effort `medium` exactly when the model id contains `oss` or `120b`; otherwise temperature 0.1, 4096 tokens, no reasoning effort; top-p 1 and no streaming in both |
| `ResolveIa.FallbackRequest` | bot.py:147-151 | the retry asks `llama-3.3-70b-versatile` at temperature 0.3 and passes no other argument, so it never equals a primary request |
| `ResolveIa.ProfileExamples` | bot.py:112-137 | `openai/gpt-oss-120b` gets the reasoning profile; `llama-3.3-70b-versatile` gets the standard one |
| `ResolveIa.ChamarGroq` | bot.py:108-154 | one or two requests: the primary one for a configured model id, then exactly one retry with `llama-3.3-70b-versatile` at 0.3 only when the primary raised (or first, when no id is configured); every request but the last raised; the result is the last reply's text, or the fatal-error text when it raised; it never raises, and an empty result means an empty completion |
| `ResolveIa.Phase1Text` | bot.py:188-203 | markers are looked for in the upper-cased text in order (CERTO in either spacing, then ERRADO in either spacing, then spaced ERRO), and exactly one of `CERTO`, `ERRADO`, `ERRO (Conteúdo não encontrado)` or the warning followed by the raw text comes out |
| `ResolveIa.NoMarkerPassesThrough` | bot.py:200-203 | a text with no marker in its upper-cased form comes back behind the warning, unchanged |
| `ResolveIa.BareWordsOutOfPattern` | bot.py:194-203 | the bare words `CERTO`, `ERRADO` and `ERRO` come back as out-of-pattern passthroughs |
| `ResolveIa.UnspacedErroOutOfPattern` | bot.py:198 | `VEREDITO:ERRO` without the space is not accepted |
| `ResolveIa.LowerCaseMarkerAccepted` | bot.py:191-197 | a lower-case `veredito: errado` is parsed as `ERRADO` |
| `ResolveIa.Enabled` | bot.py:173-183 | the backends that may be tried: Groq exactly when the priority is `'groq'` and Groq is configured, and then first; Gemini exactly when it is configured; none twice |
| `ResolveIa.FirstText` | bot.py:169-186 | the ordered fallback: a text found is non-empty and carries the label of a backend of the order; an escaping exception comes from an unguarded one; an empty order finds nothing |
| `ResolveIa.PostProcess` | bot.py:189-207 | the label is kept; in phase `'1'` the text is one of the three verdicts or the warning followed by the raw text; in any other phase it is the raw text |
| `ResolveIa.Pipeline` | bot.py:162-207 | the reference meaning of `processar` for a given context: the "no material" pair comes back exactly when the context is empty, and then no backend is called |
| `ResolveIa.FallbackUnfolded` | bot.py:169-183 | the search over the enabled backends makes the Groq requests when Groq is tried, then one Gemini call exactly when Groq gave no text and Gemini is configured, and ends with Groq's text, Gemini's non-empty text, nothing, or Gemini's exception |
| `ResolveIa.PipelineUnfolded` | bot.py:166-207 | for a non-empty context the ordered fallback makes the calls, and gives the outcome, of the source's two guarded attempts, case by case |
| `ResolveIa.StubNeverShortCircuits` | bot.py:162-164 | with the placeholder retriever the "no material" pair never comes back |
| `ResolveIa.GroqCalledIff` | bot.py:173-178 | Groq is called exactly when the context is non-empty, the priority is `'groq'` and Groq is configured |
| `ResolveIa.GeminiCalledIff` | bot.py:180-183 | Gemini is called exactly when the context is non-empty, Gemini is configured and Groq gave no text |
| `ResolveIa.OfflineIff` | bot.py:185-186 | the offline pair comes back exactly when no backend tried gave a non-empty text and Gemini did not raise |
| `ResolveIa.GroqFatalBlocksGemini` | bot.py:145-183 | when every request `_chamar_groq` sends raises, the fatal-error text is the answer, labelled as Groq's, Gemini is not called, and in phase `'1'` the text comes back behind the out-of-pattern warning |
| `ResolveIa.NoMarkerInFatal` | bot.py:154 | the fatal-error text holds no verdict marker |
| `ResolveIa.AnswerFromLabelledBackend` | bot.py:173-207 | an answer labelled with a backend is that backend's non-empty text, parsed in phase `'1'` and returned unchanged in any other phase |
| `ResolveIa.Responder` | bot.py:163-207 | the step-by-step code after retrieval computes the outcome and the calls of the reference fallback |
| `ResolveIa.Processar` | bot.py:156-207 | `processar`, with the `'groq'` default for a missing priority, computes the reference fallback on the placeholder context and never returns the "no material" pair |
| `BotMain.PushCapped` | main.py:51-57 | `add_log` puts the new entry at index 0, shifts every earlier entry by one position, grows the list by one below the cap of 30, and otherwise drops exactly the last entry |
| `BotMain.PushWindow` | main.py:54-57 | one `add_log` moves the window of the 30 most recent entries on by one |
| `BotMain.KeepsNewest` | main.py:51-57 | from a list within the cap, any run of `add_log` calls leaves the 30 most recent entries, newest first |
| `BotMain.FirstExisting` | main.py:64-69 | the binary is the first candidate that exists, or `ffmpeg` when none does |
| `BotMain.OutputPath` | main.py:63 | the output path has the input's length, a `.wav` where each `.ogg` of the input was, every other character of the input at its place, and no `.ogg` left; a path without `.ogg` is kept |
| `BotMain.OggBecomesWav` | main.py:63 | each occurrence of `.ogg` becomes `.wav` at the same index |
| `BotMain.OutsideOggKept` | main.py:63 | a character covered by no `.ogg` occurrence is kept at its index |
| `BotMain.ReplaceLeavesNoOgg` | main.py:63 | replacing `.ogg` by `.wav` leaves no `.ogg` |
| `BotMain.OggSuffixBecomesWav` | main.py:63 | a dot-free name followed by `.ogg` becomes the same name followed by `.wav` |
| `BotMain.ConverterAudioNativo` | main.py:62-77 | the ffmpeg command line uses the first existing candidate and the derived output path; the result is that path when ffmpeg succeeds and none when it fails |
| `BotMain.BotState.constructor` | main.py:40-49 | a fresh state has phase `'1'`, priority `'groq'` and an empty log |
| `BotMain.BotState.AddLog` | main.py:51-57 | the log becomes the capped push of the new entry; phase and priority are unchanged; the class invariant (phase `'1'` or `'2'`, log within the cap) is kept |
| `BotMain.BotState.CmdFase1` | main.py:91-94 | the phase becomes `'1'`, exactly one entry is logged, the priority is unchanged |
| `BotMain.BotState.CmdFase2` | main.py:96-99 | the phase becomes `'2'`, exactly one entry is logged, the priority is unchanged |
| `BotMain.BotState.CmdStatus` | main.py:101-113 | the engine label is `Gemini + Groq`, `Gemini`, `Desconhecido + Groq` or `Desconhecido` for the four flag combinations: it starts with `Gemini` exactly when Gemini is configured and ends with ` + Groq` exactly when Groq is; the last event is the newest entry's message, or `Nenhum` for an empty log |

## Left out

- The Gemini and Groq SDK calls are foreign code. Each is an oracle parameter from
  request to reply.
- `ResolveIaBlindado.__init__`: the SDK set-up calls are foreign. Whether they raised is
  given as the two flags of `Config`, and the `GROQ_MODEL` value as an optional string.
- `load_dotenv` and environment reads: credentials and model ids are inputs.
- A Groq completion whose text is `None` is modelled as the empty string; `processar`
  treats both alike.
- A `user_input` of `None`, which the f-strings would render as `None`, is not
  modelled; the query is a string. An explicit `'prioridade': None` is not modelled
  either; only a missing key gets the `'groq'` default.
- The Pinecone retrieval that the placeholder stands for is not part of this model.
- `MontarPrompt`: the template wording is abbreviated to a few lines of each template
  with its two holes; the full texts are not reproduced.
- `Upper`: only ASCII letters and the dotless i (U+0131, to `I`) are upper-cased. Other
  single-character mappings, among them U+017F (long s) to `S`, and the
  multi-character ones are not modelled. Several of those produce ASCII letters, among
  them U+00DF (`SS`), U+FB00 to U+FB06 (`FF`, `FI`, `FL`, `FFI`, `FFL`, `ST`, `ST`),
  U+0149 (`ʼN`), U+01F0 (`J` and a combining caron), and U+1E96 to U+1E9A (`H`, `T`,
  `W`, `Y` or `A`, each followed by a combining mark or U+02BE). This cannot change
  which marker is found. `S`, `F`, `H`, `J`, `N`, `W` and `Y` appear in no marker. No
  expansion contains `V` or `O`, and every marker starts with `V` and ends with `O`. So
  a marker match cannot start or end inside an expansion, and no expansion is a
  substring of a marker. The text returned behind the out-of-pattern warning is the
  raw text, not the upper-cased one.
- The Telegram handlers' messaging (`start`, the replies of every command, the rest of
  the `/status` report text, `handle_audio`), the Flask keep-alive server and its
  daemon thread, and `run_polling` are I/O and concurrency.
- The unsynchronised sharing of `state` between concurrent handlers is concurrency and
  cannot be modelled sequentially.
- Running ffmpeg through `subprocess`, speech recognition, speech synthesis and the
  temporary files are external processes and file I/O. Only the path, the binary
  choice and the command line are modelled; whether ffmpeg succeeds is a parameter.
- `datetime.now()` formatting and all `print` logging: the time of day is a parameter.
