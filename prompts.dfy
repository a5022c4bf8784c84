/**
 * The system prompt: one fixed template whose static prose blocks surround
 * seven computed slots (Supabase reminder, `.env` guidance, allowed HTML
 * elements, working directory, and the three design-scheme fields).
 *
 * The prose of the static blocks is not modelled; each block is a constant
 * whose text is left unspecified. The literal text leading into every slot
 * is written out, so what the slots produce can be located in the result.
 */
module Prompts {
  import opened Wrappers
  import opened Text
  import Constants

  // ---------------------------------------------------------------------
  // Inputs
  // ---------------------------------------------------------------------

  /** Credentials of the selected Supabase project; each field may be missing. */
  datatype Credentials = Credentials(anonKey: Option<string>, supabaseUrl: Option<string>)

  /** The Supabase connection status handed in by the chat. */
  datatype SupabaseStatus = SupabaseStatus(
    isConnected: bool,
    hasSelectedProject: bool,
    credentials: Option<Credentials>)

  /** The JSON text of one design-scheme value, as the serializer renders it. */
  type JsonText = string

  /** The user's design scheme; a field that is undefined is `None`. */
  datatype DesignScheme = DesignScheme(
    font: Option<JsonText>,
    palette: Option<JsonText>,
    features: Option<JsonText>)

  // ---------------------------------------------------------------------
  // Static text
  // ---------------------------------------------------------------------

  /** Opening of the template up to the database note: role, copywriting framework, system constraints. */
  const IntroBlocks: string
  /** Database rules up to the first query-action example tag. */
  const DatabaseRulesHead: string
  /** Database rules between the two query-action example tags. */
  const DatabaseRulesMiddle: string
  /** Database rules after the second query-action example tag, and the formatting note. */
  const DatabaseRulesTail: string
  /** Chain-of-thought instructions and the first artifact instructions. */
  const ArtifactRulesHead: string
  /** Remaining artifact instructions and the landing-page design rules. */
  const DesignRules: string
  /** Closing rules and worked examples. */
  const ClosingRules: string

  const DatabaseNoteLead := "  IMPORTANT NOTE: Supabase project setup and configuration is handled seperately by the user! "
  const EnvFileLead := "    IMPORTANT: Create a .env file if it doesnt exist"
  /** The opening tag of the query-action example; `${projectId}` is literal text, not a slot. */
  const QueryActionTag := "<boltAction type=\"supabase\" operation=\"query\" projectId=\"${projectId}\">"
  const HtmlElementsLead := "  You can make the output pretty by using only the following available HTML elements: "
  const CwdLead := "    3. The current working directory is `"
  const CwdTrail := "`."
  const FontLead := "        FONT: "
  const PaletteLead := "\n        COLOR PALETTE: "
  const FeaturesLead := "\n        FEATURES: "

  /** The database rules, holding the query-action example tag twice. */
  const DatabaseRules := DatabaseRulesHead + QueryActionTag + (DatabaseRulesMiddle + QueryActionTag + DatabaseRulesTail)

  /** The eight static segments, in template order. */
  const Segment0 := IntroBlocks + DatabaseNoteLead
  const Segment1 := " \n" + EnvFileLead
  const Segment2 := DatabaseRules + HtmlElementsLead
  const Segment3 := ArtifactRulesHead + CwdLead
  const Segment4 := CwdTrail + (DesignRules + FontLead)
  const Segment5 := PaletteLead
  const Segment6 := FeaturesLead
  const Segment7 := ClosingRules
  const Segments := [Segment0, Segment1, Segment2, Segment3, Segment4, Segment5, Segment6, Segment7]

  // ---------------------------------------------------------------------
  // Supabase reminder slot
  // ---------------------------------------------------------------------

  const NotConnectedReminder := "You are not connected to Supabase. Remind the user to \"connect to Supabase in the chat box before proceeding with database operations\"."
  const SelectProjectReminder := "Remind the user \"You are connected to Supabase but no project is selected. Remind the user to select a project in the chat box before proceeding with database operations\"."

  /** The reminder inserted after the database note. */
  function SupabaseReminder(supabase: Option<SupabaseStatus>): string {
    match supabase
    case None => ""
    case Some(s) =>
      if !s.isConnected then NotConnectedReminder
      else if !s.hasSelectedProject then SelectProjectReminder
      else ""
  }

  /**
   * At most one reminder is inserted: none without a status, the connection
   * reminder exactly when not connected, the project reminder exactly when
   * connected without a project.
   */
  lemma SupabaseReminderCases(supabase: Option<SupabaseStatus>)
    ensures var r := SupabaseReminder(supabase);
            && (r == "" || r == NotConnectedReminder || r == SelectProjectReminder)
            && (supabase.None? ==> r == "")
            && (r == NotConnectedReminder <==> supabase.Some? && !supabase.value.isConnected)
            && (r == SelectProjectReminder <==> supabase.Some? && supabase.value.isConnected && !supabase.value.hasSelectedProject)
  {
  }

  /** The connection readiness ladder, lowest rung first. */
  datatype DatabaseState = Disconnected | ConnectedNoProject | ConnectedWithProject

  /**
   * The rung a status stands on, in the order the prompt tests the flags:
   * not connected is Disconnected whatever `hasSelectedProject` says.
   */
  function StateOf(s: SupabaseStatus): (st: DatabaseState)
    ensures st == Disconnected <==> !s.isConnected
    ensures st == ConnectedWithProject <==> s.isConnected && s.hasSelectedProject
  {
    if !s.isConnected then Disconnected
    else if s.hasSelectedProject then ConnectedWithProject
    else ConnectedNoProject
  }

  /** The reminder each rung calls for; every rung below the top has its own. */
  function ReminderFor(st: DatabaseState): (r: string)
    ensures r == "" <==> st == ConnectedWithProject
    ensures r == NotConnectedReminder <==> st == Disconnected
    ensures r == SelectProjectReminder <==> st == ConnectedNoProject
  {
    match st
    case Disconnected => NotConnectedReminder
    case ConnectedNoProject => SelectProjectReminder
    case ConnectedWithProject => ""
  }

  /** The nested conditional agrees with the total mapping over the ladder. */
  lemma ReminderFollowsState(s: SupabaseStatus)
    ensures SupabaseReminder(Some(s)) == ReminderFor(StateOf(s))
  {
  }

  /** A status claiming a project without a connection is handled as not connected. */
  lemma ProjectWithoutConnectionIsNotConnected(s: SupabaseStatus)
    requires s.hasSelectedProject && !s.isConnected
    ensures StateOf(s) == Disconnected
    ensures SupabaseReminder(Some(s)) == NotConnectedReminder
    ensures SupabaseReminder(Some(s)) != SelectProjectReminder
  {
  }

  // ---------------------------------------------------------------------
  // `.env` slot
  // ---------------------------------------------------------------------

  /** A JavaScript string value is truthy when it is present and not empty. */
  predicate Truthy(v: Option<string>) {
    v.Some? && v.value != ""
  }

  /**
   * The four-way conjunction that lets the credentials into the prompt.
   * It opens only where no reminder is inserted, and once both credentials
   * are truthy it opens exactly there.
   */
  predicate CredentialGate(supabase: Option<SupabaseStatus>)
    ensures CredentialGate(supabase) ==> SupabaseReminder(supabase) == ""
    ensures supabase.Some? && supabase.value.credentials.Some?
            && Truthy(supabase.value.credentials.value.supabaseUrl)
            && Truthy(supabase.value.credentials.value.anonKey)
            ==> (CredentialGate(supabase) <==> SupabaseReminder(supabase) == "")
  {
    && supabase.Some?
    && supabase.value.isConnected
    && supabase.value.hasSelectedProject
    && supabase.value.credentials.Some?
    && Truthy(supabase.value.credentials.value.supabaseUrl)
    && Truthy(supabase.value.credentials.value.anonKey)
  }

  const EnvVariablesIntro := " and include the following variables:\n    "
  const UrlVariable := "VITE_SUPABASE_URL="
  const VariableBreak := "\n    "
  const AnonKeyVariable := "VITE_SUPABASE_ANON_KEY="

  /** The two variable lines of the `.env` file, URL first. */
  function EnvVariableLines(url: string, anonKey: string): string {
    (UrlVariable + url) + VariableBreak + (AnonKeyVariable + anonKey)
  }

  /** The text completing the `.env` sentence: the two variables when the gate is open, else a full stop. */
  function EnvFileSuffix(supabase: Option<SupabaseStatus>): string {
    if CredentialGate(supabase) then
      var c := supabase.value.credentials.value;
      EnvVariablesIntro + EnvVariableLines(c.supabaseUrl.value, c.anonKey.value)
    else "."
  }

  /** The suffix is a bare full stop exactly when the gate is closed. */
  lemma EnvFileSuffixGate(supabase: Option<SupabaseStatus>)
    ensures EnvFileSuffix(supabase) == "." <==> !CredentialGate(supabase)
  {
  }

  /** Both variable lines appear verbatim in the lines, the URL line first. */
  lemma EnvVariableLinesInOrder(url: string, anonKey: string)
    ensures Occurs(UrlVariable + url, EnvVariableLines(url, anonKey), 0)
    ensures Occurs(AnonKeyVariable + anonKey, EnvVariableLines(url, anonKey), |UrlVariable + url| + |VariableBreak|)
  {
  }

  /** The variable names appear in the `.env` guidance if and only if the gate is open. */
  lemma EnvSuffixNamesVariablesIffGated(supabase: Option<SupabaseStatus>)
    ensures Contains(EnvFileSuffix(supabase), UrlVariable) <==> CredentialGate(supabase)
    ensures Contains(EnvFileSuffix(supabase), AnonKeyVariable) <==> CredentialGate(supabase)
  {
    if CredentialGate(supabase) {
      var c := supabase.value.credentials.value;
      var url, key := c.supabaseUrl.value, c.anonKey.value;
      var r := EnvFileSuffix(supabase);
      var lines := EnvVariableLines(url, key);
      assert r == EnvVariablesIntro + lines + [];
      ContainsInside(EnvVariablesIntro, lines, []);
      EnvVariableLinesInOrder(url, key);
      ContainsInside([], UrlVariable, url);
      assert [] + UrlVariable + url == UrlVariable + url;
      ContainsTransitive(lines, UrlVariable + url, UrlVariable);
      ContainsTransitive(r, lines, UrlVariable);
      ContainsInside([], AnonKeyVariable, key);
      assert [] + AnonKeyVariable + key == AnonKeyVariable + key;
      ContainsTransitive(lines, AnonKeyVariable + key, AnonKeyVariable);
      ContainsTransitive(r, lines, AnonKeyVariable);
    }
  }

  /** When the gate is open both credentials are inserted verbatim, the URL line before the key line. */
  lemma EnvSuffixCredentialsInOrder(supabase: Option<SupabaseStatus>)
    requires CredentialGate(supabase)
    ensures var c := supabase.value.credentials.value;
            var urlLine, keyLine := UrlVariable + c.supabaseUrl.value, AnonKeyVariable + c.anonKey.value;
            && Occurs(urlLine, EnvFileSuffix(supabase), |EnvVariablesIntro|)
            && Occurs(keyLine, EnvFileSuffix(supabase), |EnvVariablesIntro| + |urlLine| + |VariableBreak|)
            && |EnvVariablesIntro| + |urlLine| + |VariableBreak| + |keyLine| == |EnvFileSuffix(supabase)|
  {
  }

  // ---------------------------------------------------------------------
  // HTML element list slot
  // ---------------------------------------------------------------------

  /** One tag name as an element: `<name>`. */
  function Bracketed(name: string): (r: string)
    ensures |r| == |name| + 2 && r[0] == '<' && r[|r| - 1] == '>' && r[1..|r| - 1] == name
  {
    "<" + name + ">"
  }

  /** The tag names, each bracketed, joined by `, ` in list order. */
  function HtmlElementList(tags: seq<string>): (r: string)
    ensures r == "" <==> tags == []
    decreases |tags|
  {
    if tags == [] then ""
    else if |tags| == 1 then Bracketed(tags[0])
    else Bracketed(tags[0]) + ", " + HtmlElementList(tags[1..])
  }

  /** Index of the first `c` in `s`, or `|s|` when there is none. */
  function IndexOfChar(s: string, c: char): (k: nat)
    ensures k <= |s|
    ensures k < |s| ==> s[k] == c
    ensures forall j :: 0 <= j < k ==> s[j] != c
  {
    if s == [] then 0 else if s[0] == c then 0 else 1 + IndexOfChar(s[1..], c)
  }

  /** The name inside one element `<name>`; fails on anything not bracketed. */
  function Unbracket(item: string): (r: Option<string>)
    ensures r.Some? <==> |item| >= 2 && item[0] == '<' && item[|item| - 1] == '>'
  {
    if |item| >= 2 && item[0] == '<' && item[|item| - 1] == '>' then Some(item[1..|item| - 1]) else None
  }

  /**
   * Reads an element list back into tag names: bracketed elements separated
   * by a comma and one space. Fails on any other separator, on an element
   * that is not bracketed, and on a separator with nothing after it.
   */
  function ParseHtmlElementList(s: string): Option<seq<string>>
    decreases |s|
  {
    if s == [] then Some([])
    else
      var k := IndexOfChar(s, ',');
      var first := Unbracket(s[..k]);
      if first.None? then None
      else if k == |s| then Some([first.value])
      else if k + 2 < |s| && s[k + 1] == ' ' then
        match ParseHtmlElementList(s[k + 2..])
        case None => None
        case Some(rest) => Some([first.value] + rest)
      else None
  }

  /** Elements joined by anything but `, ` are rejected. */
  lemma ParseRejectsOtherSeparator()
    ensures ParseHtmlElementList("<a>,;<b>") == None
    ensures ParseHtmlElementList("<a>,<b>") == None
    ensures ParseHtmlElementList("<a>, ") == None
    ensures ParseHtmlElementList("a, <b>") == None
  {
    assert IndexOfChar("<a>,;<b>", ',') == 3;
    assert IndexOfChar("<a>,<b>", ',') == 3;
    assert IndexOfChar("<a>, ", ',') == 3;
    assert IndexOfChar("a, <b>", ',') == 1;
  }

  lemma IndexOfCharAfterPrefix(a: string, b: string, c: char)
    requires c !in a
    ensures IndexOfChar(a + [c] + b, c) == |a|
  {
    var s := a + [c] + b;
    assert s[|a|] == c;
    assert forall j :: 0 <= j < |a| ==> s[j] == a[j];
  }

  lemma BracketedWithoutComma(name: string)
    requires ',' !in name
    ensures ',' !in Bracketed(name)
  {
  }

  /** A single comma-free element reads back as its name. */
  lemma ParseSingleElement(name: string)
    requires ',' !in name
    ensures ParseHtmlElementList(Bracketed(name)) == Some([name])
  {
    BracketedWithoutComma(name);
    assert IndexOfChar(Bracketed(name), ',') == |Bracketed(name)|;
    assert Bracketed(name)[..|Bracketed(name)|] == Bracketed(name);
  }

  /** Reading stops at the comma closing the first element and resumes after the space. */
  lemma ParseFirstElement(name: string, rest: string)
    requires ',' !in name && rest != ""
    ensures ParseHtmlElementList(Bracketed(name) + ", " + rest)
         == if ParseHtmlElementList(rest).Some? then Some([name] + ParseHtmlElementList(rest).value) else None
  {
    var head := Bracketed(name);
    var s := head + ", " + rest;
    BracketedWithoutComma(name);
    assert s == head + [','] + (" " + rest);
    IndexOfCharAfterPrefix(head, " " + rest, ',');
    assert s[..|head|] == head;
    assert s[|head| + 2..] == rest;
    assert s[|head| + 1] == ' ';
  }

  /** Reading the list back gives the tag names, in order, when no name contains a comma. */
  lemma {:induction false} HtmlElementListRoundTrip(tags: seq<string>)
    requires forall t :: t in tags ==> ',' !in t
    ensures ParseHtmlElementList(HtmlElementList(tags)) == Some(tags)
  {
    if |tags| == 1 {
      ParseSingleElement(tags[0]);
      assert tags == [tags[0]];
    } else if |tags| > 1 {
      assert HtmlElementList(tags[1..]) != "";
      ParseFirstElement(tags[0], HtmlElementList(tags[1..]));
      HtmlElementListRoundTrip(tags[1..]);
      assert tags == [tags[0]] + tags[1..];
    }
  }

  /** n names without commas yield n elements separated by exactly n - 1 commas. */
  lemma {:induction false} HtmlElementListCommas(tags: seq<string>)
    requires tags != []
    requires forall t :: t in tags ==> ',' !in t
    ensures CountChar(HtmlElementList(tags), ',') == |tags| - 1
  {
    var head := Bracketed(tags[0]);
    BracketedWithoutComma(tags[0]);
    CountCharAbsent(head, ',');
    if |tags| > 1 {
      HtmlElementListCommas(tags[1..]);
      CountCharAppend(head, ", ", ',');
      CountCharAppend(head + ", ", HtmlElementList(tags[1..]), ',');
    }
  }

  // ---------------------------------------------------------------------
  // Working directory and design-scheme slots
  // ---------------------------------------------------------------------

  /** The `cwd` parameter: verbatim when given, the sandbox working directory when omitted. */
  function WorkingDirectory(cwd: Option<string>): (r: string)
    ensures cwd.Some? ==> r == cwd.value
    ensures cwd.None? ==> r == Constants.WorkDir
  {
    cwd.GetOr(Constants.WorkDir)
  }

  /** Serialized value of one optional design field; an undefined value renders as `undefined`. */
  function DesignFieldText(v: Option<JsonText>): (r: string)
    ensures v.None? ==> r == "undefined"
    ensures v.Some? ==> r == v.value
  {
    v.GetOr("undefined")
  }

  function FontOf(d: Option<DesignScheme>): Option<JsonText> {
    if d.Some? then d.value.font else None
  }

  function PaletteOf(d: Option<DesignScheme>): Option<JsonText> {
    if d.Some? then d.value.palette else None
  }

  function FeaturesOf(d: Option<DesignScheme>): Option<JsonText> {
    if d.Some? then d.value.features else None
  }

  // ---------------------------------------------------------------------
  // The prompt
  // ---------------------------------------------------------------------

  /** The template's pieces in order: static segments at even, slot values at odd positions. */
  function PromptPieces(
    cwd: Option<string>,
    supabase: Option<SupabaseStatus>,
    designScheme: Option<DesignScheme>,
    htmlElements: seq<string>): (ps: seq<string>)
    ensures |ps| == 15
  {
    [ Segment0, SupabaseReminder(supabase),
      Segment1, EnvFileSuffix(supabase),
      Segment2, HtmlElementList(htmlElements),
      Segment3, WorkingDirectory(cwd),
      Segment4, DesignFieldText(FontOf(designScheme)),
      Segment5, DesignFieldText(PaletteOf(designScheme)),
      Segment6, DesignFieldText(FeaturesOf(designScheme)),
      Segment7 ]
  }

  /** The assembled system prompt. */
  function GetSystemPrompt(
    cwd: Option<string>,
    supabase: Option<SupabaseStatus>,
    designScheme: Option<DesignScheme>,
    htmlElements: seq<string>): string
  {
    Concat(PromptPieces(cwd, supabase, designScheme, htmlElements))
  }

  /** The static segments are the same whatever the arguments; only the slots at odd positions vary. */
  lemma StaticSegmentsFixed(
    cwd: Option<string>, supabase: Option<SupabaseStatus>, designScheme: Option<DesignScheme>, htmlElements: seq<string>)
    ensures forall k :: 0 <= k < 8 ==> PromptPieces(cwd, supabase, designScheme, htmlElements)[2 * k] == Segments[k]
  {
  }

  /** Every slot value, and every static segment, appears verbatim in the prompt at its offset. */
  lemma PiecesOccurInPrompt(
    cwd: Option<string>, supabase: Option<SupabaseStatus>, designScheme: Option<DesignScheme>, htmlElements: seq<string>,
    i: nat)
    requires i < 15
    ensures var ps := PromptPieces(cwd, supabase, designScheme, htmlElements);
            Occurs(ps[i], GetSystemPrompt(cwd, supabase, designScheme, htmlElements), Offset(ps, i))
  {
    PieceOccurs(PromptPieces(cwd, supabase, designScheme, htmlElements), i);
  }

  /** The prompt contains `lead + slot + trail` for the slot at odd position `i`. */
  lemma SlotInContext(ps: seq<string>, i: nat, lead: string, trail: string, x: string, y: string)
    requires 0 < i < |ps| - 1
    requires ps[i - 1] == x + lead && ps[i + 1] == trail + y
    ensures Contains(Concat(ps), lead + ps[i] + trail)
  {
    var m := lead + ps[i] + trail;
    var window := ps[i - 1] + ps[i] + ps[i + 1];
    ConcatWindow(ps, i);
    Regroup(x, lead, ps[i], trail, y);
    OccursInside(x, m, y);
    OccursShift(m, Concat(ps[..i - 1]), window, Concat(ps[i + 2..]), |x|);
  }

  lemma Regroup(x: string, lead: string, v: string, trail: string, y: string)
    ensures (x + lead) + v + (trail + y) == x + (lead + v + trail) + y
  {
  }

  /** The working-directory sentence holds `cwd` verbatim (or the default); an empty `cwd` is embedded as is. */
  lemma CwdSentenceInPrompt(
    cwd: Option<string>, supabase: Option<SupabaseStatus>, designScheme: Option<DesignScheme>, htmlElements: seq<string>)
    ensures Contains(GetSystemPrompt(cwd, supabase, designScheme, htmlElements), CwdLead + WorkingDirectory(cwd) + CwdTrail)
    ensures cwd.None? ==> Contains(GetSystemPrompt(cwd, supabase, designScheme, htmlElements), CwdLead + "/home/project" + CwdTrail)
  {
    var ps := PromptPieces(cwd, supabase, designScheme, htmlElements);
    SlotInContext(ps, 7, CwdLead, CwdTrail, ArtifactRulesHead, DesignRules + FontLead);
    Constants.WorkDirIsHomeProject();
  }

  /** The reminder slot sits between the database note and the `.env` sentence. */
  lemma ReminderInPrompt(
    cwd: Option<string>, supabase: Option<SupabaseStatus>, designScheme: Option<DesignScheme>, htmlElements: seq<string>)
    ensures Contains(GetSystemPrompt(cwd, supabase, designScheme, htmlElements),
                     DatabaseNoteLead + SupabaseReminder(supabase) + (" \n" + EnvFileLead))
  {
    var ps := PromptPieces(cwd, supabase, designScheme, htmlElements);
    assert ps[2] == (" \n" + EnvFileLead) + "";
    SlotInContext(ps, 1, DatabaseNoteLead, " \n" + EnvFileLead, IntroBlocks, "");
  }

  /** The `.env` sentence in the prompt is completed by the `.env` slot. */
  lemma EnvSentenceInPrompt(
    cwd: Option<string>, supabase: Option<SupabaseStatus>, designScheme: Option<DesignScheme>, htmlElements: seq<string>)
    ensures Contains(GetSystemPrompt(cwd, supabase, designScheme, htmlElements), EnvFileLead + EnvFileSuffix(supabase))
  {
    var ps := PromptPieces(cwd, supabase, designScheme, htmlElements);
    var suffix := EnvFileSuffix(supabase);
    assert ps[2] == " \n" + EnvFileLead && ps[3] == suffix && ps[4] == "" + Segment2;
    SlotInContext(ps, 3, EnvFileLead, "", " \n", Segment2);
    assert EnvFileLead + suffix + "" == EnvFileLead + suffix;
  }

  /** Without the gate the `.env` sentence ends in a full stop: no variable is listed. */
  lemma UngatedEnvSentenceInPrompt(
    cwd: Option<string>, supabase: Option<SupabaseStatus>, designScheme: Option<DesignScheme>, htmlElements: seq<string>)
    requires !CredentialGate(supabase)
    ensures Contains(GetSystemPrompt(cwd, supabase, designScheme, htmlElements), EnvFileLead + ".")
  {
    EnvSentenceInPrompt(cwd, supabase, designScheme, htmlElements);
  }

  /** The query-action example keeps its placeholder `${projectId}` literally, for every argument. */
  lemma QueryTemplateLiteralInPrompt(
    cwd: Option<string>, supabase: Option<SupabaseStatus>, designScheme: Option<DesignScheme>, htmlElements: seq<string>)
    ensures Contains(GetSystemPrompt(cwd, supabase, designScheme, htmlElements), QueryActionTag)
  {
    var ps := PromptPieces(cwd, supabase, designScheme, htmlElements);
    var segment := Segment2;
    ContainsInside(DatabaseRulesHead, QueryActionTag, DatabaseRulesMiddle + QueryActionTag + DatabaseRulesTail);
    ContainsPrefix(DatabaseRules, HtmlElementsLead);
    ContainsTransitive(segment, DatabaseRules, QueryActionTag);
    assert ps[4] == segment;
    ContainsWithinPiece(ps, 4, QueryActionTag);
  }

  /** The element list follows its lead sentence in the prompt. */
  lemma HtmlListInPrompt(
    cwd: Option<string>, supabase: Option<SupabaseStatus>, designScheme: Option<DesignScheme>, htmlElements: seq<string>)
    ensures Contains(GetSystemPrompt(cwd, supabase, designScheme, htmlElements), HtmlElementsLead + HtmlElementList(htmlElements))
  {
    var ps := PromptPieces(cwd, supabase, designScheme, htmlElements);
    assert ps[6] == "" + Segment3;
    SlotInContext(ps, 5, HtmlElementsLead, "", DatabaseRules, Segment3);
    assert HtmlElementsLead + ps[5] + "" == HtmlElementsLead + ps[5];
  }

  /** Each design field is rendered on its own labelled line; an absent scheme renders `undefined` three times. */
  lemma DesignFieldsInPrompt(
    cwd: Option<string>, supabase: Option<SupabaseStatus>, designScheme: Option<DesignScheme>, htmlElements: seq<string>)
    ensures var prompt := GetSystemPrompt(cwd, supabase, designScheme, htmlElements);
            && Contains(prompt, FontLead + DesignFieldText(FontOf(designScheme)) + PaletteLead)
            && Contains(prompt, PaletteLead + DesignFieldText(PaletteOf(designScheme)) + FeaturesLead)
            && Contains(prompt, FeaturesLead + DesignFieldText(FeaturesOf(designScheme)))
    ensures designScheme.None? ==>
            Contains(GetSystemPrompt(cwd, supabase, designScheme, htmlElements), FontLead + "undefined" + PaletteLead)
  {
    var ps := PromptPieces(cwd, supabase, designScheme, htmlElements);
    assert ps[8] == (CwdTrail + DesignRules) + FontLead;
    assert ps[10] == PaletteLead + "";
    SlotInContext(ps, 9, FontLead, PaletteLead, CwdTrail + DesignRules, "");
    SlotInContext(ps, 11, PaletteLead, FeaturesLead, "", "");
    SlotInContext(ps, 13, FeaturesLead, "", "", ClosingRules);
    assert FeaturesLead + ps[13] + "" == FeaturesLead + ps[13];
  }

  /** With the gate open, each credential line appears verbatim in the prompt. */
  lemma CredentialsInPrompt(
    cwd: Option<string>, supabase: Option<SupabaseStatus>, designScheme: Option<DesignScheme>, htmlElements: seq<string>)
    requires CredentialGate(supabase)
    ensures var c := supabase.value.credentials.value;
            var prompt := GetSystemPrompt(cwd, supabase, designScheme, htmlElements);
            && Contains(prompt, UrlVariable + c.supabaseUrl.value)
            && Contains(prompt, AnonKeyVariable + c.anonKey.value)
  {
    var c := supabase.value.credentials.value;
    var url, key := c.supabaseUrl.value, c.anonKey.value;
    var prompt := GetSystemPrompt(cwd, supabase, designScheme, htmlElements);
    var lines := EnvVariableLines(url, key);
    EnvSentenceInPrompt(cwd, supabase, designScheme, htmlElements);
    assert EnvFileLead + EnvFileSuffix(supabase) == (EnvFileLead + EnvVariablesIntro) + lines + [];
    ContainsInside(EnvFileLead + EnvVariablesIntro, lines, []);
    ContainsTransitive(prompt, EnvFileLead + EnvFileSuffix(supabase), lines);
    EnvVariableLinesInOrder(url, key);
    ContainsTransitive(prompt, lines, UrlVariable + url);
    ContainsTransitive(prompt, lines, AnonKeyVariable + key);
  }

  /**
   * A connected status with a selected project gets no reminder: the database
   * note runs straight into the `.env` sentence.
   */
  lemma ConnectedProjectOmitsReminder(
    cwd: Option<string>, supabase: Option<SupabaseStatus>, designScheme: Option<DesignScheme>, htmlElements: seq<string>)
    requires supabase.Some? && supabase.value.isConnected && supabase.value.hasSelectedProject
    ensures SupabaseReminder(supabase) == ""
    ensures Contains(GetSystemPrompt(cwd, supabase, designScheme, htmlElements), DatabaseNoteLead + " \n" + EnvFileLead)
  {
    ReminderInPrompt(cwd, supabase, designScheme, htmlElements);
    assert DatabaseNoteLead + SupabaseReminder(supabase) + (" \n" + EnvFileLead) == DatabaseNoteLead + " \n" + EnvFileLead;
  }

  /**
   * A connected status with a selected project and both credentials: the
   * database note runs straight into the `.env` sentence with no reminder
   * between them, and both variables appear with their literal values.
   */
  lemma ConnectedProjectScenario(cwd: Option<string>, designScheme: Option<DesignScheme>, htmlElements: seq<string>)
    ensures var supabase := Some(SupabaseStatus(true, true, Some(Credentials(Some("abc123"), Some("https://x.supabase.co")))));
            var prompt := GetSystemPrompt(cwd, supabase, designScheme, htmlElements);
            && SupabaseReminder(supabase) == ""
            && Contains(prompt, DatabaseNoteLead + " \n" + EnvFileLead)
            && Contains(prompt, UrlVariable + "https://x.supabase.co")
            && Contains(prompt, AnonKeyVariable + "abc123")
  {
    var supabase := Some(SupabaseStatus(true, true, Some(Credentials(Some("abc123"), Some("https://x.supabase.co")))));
    assert CredentialGate(supabase);
    CredentialsInPrompt(cwd, supabase, designScheme, htmlElements);
    ConnectedProjectOmitsReminder(cwd, supabase, designScheme, htmlElements);
  }
}
