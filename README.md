# CopyBolt system prompt and application constants, in Dafny

This project models two files of the CopyBolt copywriting assistant:

- `getSystemPrompt` (app/lib/common/prompts/prompts.ts) builds the system prompt sent to the language model.
  It is one template: fixed prose blocks with seven computed slots between them.
  The slots are the Supabase reminder, the `.env` guidance, the allowed-HTML-element list, the working directory,
  and the font, colour palette and features of the user's design scheme.
- app/utils/constants.ts holds the sandbox working directory (`/home/project`) and the starter-template catalogue.
  It also fills `providerBaseUrlEnvKeys`, a dictionary from provider name to the names of that provider's
  base-URL and API-token environment variables.

Files:

- `wrappers.dfy`: module `Wrappers`, an `Option` type for absent properties and `undefined` arguments.
- `text.dfy`: module `Text`, concatenation of pieces and substring occurrence, with the lemmas that locate a piece in a
  concatenation.
- `constants.dfy`: module `Constants`, the working directory, the provider env-key loop and the template catalogue.
- `prompts.dfy`: module `Prompts`, the slots, the assembled prompt, and the lemmas about both.

How the prompt is modelled. `Prompts.PromptPieces` lists the template's 15 pieces in order.
Static segments sit at even positions and slot values at odd ones.
`Prompts.GetSystemPrompt` is their concatenation.
The prose of each static block is a constant whose text is left unspecified (`IntroBlocks`, `DatabaseRulesHead`, …).
The literal text leading into each slot is written out exactly.
After the reminder, the working directory and the font and palette slots, the text that follows is written out too.
The query-action example tag is written out too. It carries the literal text `${projectId}`.
After the `.env`, HTML-list and features slots, the text that follows belongs to an unspecified prose block.
This lets every lemma locate a slot's value in the prompt.
The function is deterministic: it is a Dafny function.
Its only inputs are `cwd`, the Supabase status, the design scheme and the HTML element names.

The model follows the code in three places a reader might expect otherwise:

- A status with `hasSelectedProject` true and `isConnected` false gets the "not connected" reminder, as the
  ternary's test order gives. It is not treated as "connected, no project" (`Prompts.StateOf`,
  `Prompts.ProjectWithoutConnectionIsNotConnected`).
- An empty `cwd` is not rejected. There is no error path, and the empty string is embedded as it is
  (`Prompts.CwdSentenceInPrompt`).
- An absent design-scheme field is rendered as the word `undefined`. That is what a template literal makes of
  `JSON.stringify(undefined)`.

## Model

| member | source | states |
|---|---|---|
| Constants.WorkDirIsHomeProject | app/utils/constants.ts:4-5 | the working directory is `/home/` followed by the project directory name, i.e. `/home/project`, an absolute path |
| Constants.BuildProviderBaseUrlEnvKeys | app/utils/constants.ts:24-30 | the loop, starting from an empty dictionary, yields exactly the fold of per-provider writes; its keys are exactly the provider names, and each name maps to the keys of the last provider carrying it |
| Constants.EnvKeysOf | app/utils/constants.ts:26-29 | the entry written for a provider holds its `baseUrlKey` and `apiTokenKey` as configured, each possibly absent; its contract is carried by `EnvKeyTableLastWins` |
| Constants.EnvKeyTableDomain | app/utils/constants.ts:24-30 | after the loop the dictionary's key set is exactly the set of provider names, including providers whose config lacks either key |
| Constants.EnvKeyTableLastWins | app/utils/constants.ts:25-29 | the entry of a name holds the `baseUrlKey`/`apiTokenKey` of the last provider in list order with that name; later duplicates overwrite earlier ones, and absent fields stay absent |
| Constants.EnvKeyTableUpdatesOneEntry | app/utils/constants.ts:26-29 | visiting one provider writes only that provider's entry; every other name keeps its presence and its value |
| Constants.StarterTemplateNamesDistinct | app/utils/constants.ts:34-115 | the catalogue holds ten templates with pairwise distinct names, so names can serve as list keys |
| Constants.StarterTemplatesHaveNoRepo | app/utils/constants.ts:34-115 | every template has an empty `githubRepo` |
| Prompts.SupabaseReminder | app/lib/common/prompts/prompts.ts:98-106 | the nested ternary of the reminder slot; what it yields is stated by `SupabaseReminderCases` and `ReminderFollowsState` |
| Prompts.SupabaseReminderCases | app/lib/common/prompts/prompts.ts:98-106 | at most one reminder is inserted; no status gives the empty slot; the "not connected" reminder appears exactly when a status is given and is not connected; the "select a project" reminder appears exactly when connected without a project |
| Prompts.StateOf | app/lib/common/prompts/prompts.ts:100-104 | the three-rung connection state: Disconnected exactly when not connected (whatever `hasSelectedProject` says), ConnectedWithProject exactly when connected with a project |
| Prompts.ReminderFor | app/lib/common/prompts/prompts.ts:98-106 | each rung has its own reminder and only the top rung has none, so each step up the ladder drops a reminder and none comes back |
| Prompts.ReminderFollowsState | app/lib/common/prompts/prompts.ts:98-106 | the nested conditional agrees with the total mapping from connection state to reminder, for every status |
| Prompts.ProjectWithoutConnectionIsNotConnected | app/lib/common/prompts/prompts.ts:99-101 | a status with a selected project but no connection gets the "not connected" reminder, never the select-project one |
| Prompts.CredentialGate | app/lib/common/prompts/prompts.ts:108-111 | the gate opens only where no reminder is inserted, and once both credentials are truthy it opens exactly there, so at most one of the two conditional slots speaks about the connection |
| Prompts.EnvFileSuffix | app/lib/common/prompts/prompts.ts:107-116 | the text completing the `.env` sentence; `EnvFileSuffixGate`, `EnvSuffixNamesVariablesIffGated` and `EnvSuffixCredentialsInOrder` state what it holds |
| Prompts.EnvFileSuffixGate | app/lib/common/prompts/prompts.ts:107-116 | the `.env` guidance is completed by a bare full stop exactly when the four-way gate (connected, project selected, URL truthy, anon key truthy) is closed |
| Prompts.EnvSuffixNamesVariablesIffGated | app/lib/common/prompts/prompts.ts:107-116 | `VITE_SUPABASE_URL=` and `VITE_SUPABASE_ANON_KEY=` each appear in the `.env` guidance if and only if the gate is open; an empty URL or key closes it |
| Prompts.EnvVariableLinesInOrder | app/lib/common/prompts/prompts.ts:112-114 | the URL line sits at the start of the variable lines and the key line follows it after the line break |
| Prompts.EnvSuffixCredentialsInOrder | app/lib/common/prompts/prompts.ts:112-114 | with the gate open both credential values are inserted verbatim, the URL line before the key line, and nothing follows the key |
| Prompts.Bracketed | app/lib/common/prompts/prompts.ts:297 | an element is the tag name between `<` and `>` |
| Prompts.HtmlElementList | app/lib/common/prompts/prompts.ts:297 | the list is empty exactly when there are no tag names |
| Prompts.HtmlElementListRoundTrip | app/lib/common/prompts/prompts.ts:297 | a strict reader of the list, which accepts only `<name>` elements separated by a comma and one space, gives back exactly the tag names in input order when no name contains a comma |
| Prompts.ParseRejectsOtherSeparator | app/lib/common/prompts/prompts.ts:297 | the strict list reader rejects lists joined by anything other than a comma and one space, a trailing separator, and unbracketed elements |
| Prompts.HtmlElementListCommas | app/lib/common/prompts/prompts.ts:297 | n comma-free tag names are separated by exactly n - 1 commas |
| Prompts.WorkingDirectory | app/lib/common/prompts/prompts.ts:7 | `cwd` is used as given, and defaults to the sandbox working directory when omitted |
| Prompts.DesignFieldText | app/lib/common/prompts/prompts.ts:433-435 | a design field renders as its serialized text, and as `undefined` when absent |
| Prompts.PromptPieces | app/lib/common/prompts/prompts.ts:14-681 | the template consists of 15 pieces: 8 static segments and 7 slots |
| Prompts.GetSystemPrompt | app/lib/common/prompts/prompts.ts:6-681 | the prompt is the concatenation of the 15 pieces; `PiecesOccurInPrompt` and the slot lemmas below locate each piece in it |
| Prompts.StaticSegmentsFixed | app/lib/common/prompts/prompts.ts:14-681 | the static segments are the same fixed constants whatever the arguments; only the slots vary |
| Prompts.PiecesOccurInPrompt | app/lib/common/prompts/prompts.ts:14-681 | every piece, static or computed, appears verbatim in the prompt at the offset given by the pieces before it |
| Prompts.ReminderInPrompt | app/lib/common/prompts/prompts.ts:98-106 | the reminder slot stands between the "handled seperately by the user!" note and the `.env` sentence |
| Prompts.EnvSentenceInPrompt | app/lib/common/prompts/prompts.ts:107-116 | the `.env` sentence in the prompt is completed by the `.env` slot |
| Prompts.UngatedEnvSentenceInPrompt | app/lib/common/prompts/prompts.ts:107-116 | with the gate closed the prompt says "Create a .env file if it doesnt exist." |
| Prompts.CredentialsInPrompt | app/lib/common/prompts/prompts.ts:107-116 | with the gate open the prompt contains `VITE_SUPABASE_URL=<url>` and `VITE_SUPABASE_ANON_KEY=<anonKey>` verbatim |
| Prompts.CwdSentenceInPrompt | app/lib/common/prompts/prompts.ts:350 | the working-directory sentence embeds `cwd` verbatim between backticks, including the empty string; it embeds `/home/project` when `cwd` is omitted |
| Prompts.QueryTemplateLiteralInPrompt | app/lib/common/prompts/prompts.ts:140-153 | for every argument the prompt holds the query-action tag with the literal, uninterpolated `${projectId}` |
| Prompts.HtmlListInPrompt | app/lib/common/prompts/prompts.ts:297 | the element list follows its lead sentence in the prompt |
| Prompts.DesignFieldsInPrompt | app/lib/common/prompts/prompts.ts:430-436 | font, palette and features each appear on their own labelled line; with no design scheme each renders `undefined` |
| Prompts.ConnectedProjectOmitsReminder | app/lib/common/prompts/prompts.ts:98-107 | for every status that is connected with a selected project, no reminder is inserted and the database note runs straight into the `.env` sentence |
| Prompts.ConnectedProjectScenario | app/lib/common/prompts/prompts.ts:98-116 | connected with a project and credentials `https://x.supabase.co` / `abc123`: the reminder slot is empty, so the prompt runs from the database note straight into the `.env` sentence, and both variable lines appear with those values |

## Left out

- The prose of the static prompt blocks is not modelled: the copywriting playbooks, database safety rules, artifact
  and action examples. Each block is a constant with unspecified text. So the model proves where slot values appear.
  It cannot prove that a phrase is absent from the whole prompt, because the prose could contain it.
- The action-protocol rules that the prose states are not modelled. These are structure before content, paired
  migration and query actions, migration naming, append-only migrations, the destructive-statement ban,
  row-level security and guarded DDL. Nothing in these files parses or enforces them.
- `JSON.stringify` is not part of this model. Each design-scheme field is carried as the JSON text it would produce.
- The contents of `allowedHTMLElements` are not part of this model; the tag names are an input sequence.
- `stripIndents` and `CONTINUE_PROMPT` are not part of this model; the tag function is not available.
- `LLMManager.getInstance`, `getAllProviders` and `getDefaultProvider` are not part of this model.
  The provider list is an input sequence of name and optional-key records, and `DEFAULT_PROVIDER` is omitted.
- `MODEL_REGEX` and `PROVIDER_REGEX` are left out, because the code that matches with them is not part of this model.
  `MODIFICATIONS_TAG_NAME`, `DEFAULT_MODEL`, `PROMPT_COOKIE_KEY` and the tool-approval strings are left out too:
  they are plain string constants that the modelled code does not use.
- The React components (example prompts, starter-template cards) are presentation only.
- `Constants.Template` calls the template's `label` field `labelText`, because `label` is a reserved word in Dafny.
- JavaScript's loose typing is not modelled. `isConnected` and `hasSelectedProject` are booleans, and credentials
  are strings or absent.
- Prompts.HtmlElementListRoundTrip: stated only for tag names without a comma. A name that contains `, ` cannot be
  told apart from two names once joined.
- Prompts.ConnectedProjectScenario: proves that no reminder is inserted in the reminder slot.
  It does not prove that neither reminder string occurs anywhere in the prompt, because the unspecified prose blocks could contain one.
- Constants.EnvKeyTableDomain: a JavaScript object treats the key `__proto__` specially, so a provider of that name would set the
  object's prototype instead of adding an entry. The model treats every name, that one included, as an ordinary key.
