/** The action schema: one JSON value in, a normalised action or an error out. */
module ActionSchema {
  import opened Options
  import opened Text

  /** The property names the schema knows; any other name is `Other`. */
  datatype Key =
    | KVersion | KAction | KTarget | KReason | KRisk | KPayload | KWorkflowId | KStageId | KRequiresApproval
    | KProject | KPath | KDocument
    | KContent | KPatch | KTitle | KContext | KDecision | KConsequence | KCommand | KStaged
    | Other(name: string)

  datatype Json =
    | Null
    | Bool(value: bool)
    | Number(text: string)
    | Str(s: string)
    | Arr(items: seq<Json>)
    | Obj(fields: map<Key, Json>)

  type Fields = map<Key, Json>

  const VERSION := "1.0"
  const MAX_REASON := 500
  const MAX_PATH := 1024

  datatype ActionType =
    | FileRead | FileCreate | FileWrite | FilePatch | MemoryRead | MemoryAppend | MemoryDecision
    | GitStatus | GitDiff | TestRun | WorkflowStatus
  {
    predicate IsMemory() {
      MemoryRead? || MemoryAppend? || MemoryDecision?
    }

    predicate IsTool() {
      GitStatus? || GitDiff? || TestRun? || WorkflowStatus?
    }

    /** The name before and after the dot. */
    function Halves(): (string, string) {
      match this
      case FileRead => ("file", "read")
      case FileCreate => ("file", "create")
      case FileWrite => ("file", "write")
      case FilePatch => ("file", "patch")
      case MemoryRead => ("memory", "read")
      case MemoryAppend => ("memory", "append")
      case MemoryDecision => ("memory", "decision")
      case GitStatus => ("git", "status")
      case GitDiff => ("git", "diff")
      case TestRun => ("test", "run")
      case WorkflowStatus => ("workflow", "status")
    }

    function Name(): string {
      Halves().0 + ['.'] + Halves().1
    }
  }

  datatype Document = ProjectMd | ArchitectureMd | DecisionsMd | TasksMd | ChangelogMd {
    function Stem(): string {
      match this
      case ProjectMd => "project"
      case ArchitectureMd => "architecture"
      case DecisionsMd => "decisions"
      case TasksMd => "tasks"
      case ChangelogMd => "changelog"
    }

    function Name(): string {
      Stem() + ".md"
    }
  }

  datatype Risk = Low | Medium | High {
    function Name(): string {
      match this
      case Low => "low"
      case Medium => "medium"
      case High => "high"
    }
  }

  datatype Command = Pytest | NpmTest | CmakeBuild {
    function Name(): string {
      match this
      case Pytest => "pytest"
      case NpmTest => "npm test"
      case CmakeBuild => "cmake build"
    }
  }

  /** The entry of a closed list whose name is `s`. */
  function Named<T>(all: seq<T>, name: T -> string, s: string): Option<T> {
    if all == [] then None
    else if name(all[0]) == s then Some(all[0])
    else Named(all[1..], name, s)
  }

  function ActionNamed(s: string): Option<ActionType> {
    Named([FileRead, FileCreate, FileWrite, FilePatch, MemoryRead, MemoryAppend, MemoryDecision, GitStatus, GitDiff,
           TestRun, WorkflowStatus], (a: ActionType) => a.Name(), s)
  }

  function DocumentNamed(s: string): Option<Document> {
    Named([ProjectMd, ArchitectureMd, DecisionsMd, TasksMd, ChangelogMd], (d: Document) => d.Name(), s)
  }

  function RiskNamed(s: string): Option<Risk> {
    Named([Low, Medium, High], (r: Risk) => r.Name(), s)
  }

  function CommandNamed(s: string): Option<Command> {
    Named([Pytest, NpmTest, CmakeBuild], (c: Command) => c.Name(), s)
  }

  datatype Target = Target(project: string, path: string, document: Option<Document>)

  datatype Payload =
    | NoPayload
    | Content(content: string)
    | PatchText(patch: string)
    | Adr(title: string, context: string, decision: string, consequence: string)
    | Run(command: Command)
    | Diff(staged: bool)

  datatype Action = Action(kind: ActionType, target: Target, reason: string, risk: Risk, payload: Payload,
                           workflowId: Option<string>, stageId: Option<string>, requiresApproval: bool)

  // ------------------------------------------------------------------- small parts

  /** `length` counts UTF-16 code units. */
  function Length(s: string): nat {
    if s == [] then 0 else (if s[0] as int >= 0x1_0000 then 2 else 1) + Length(s[1..])
  }

  function Field(o: Fields, key: Key): Option<Json> {
    if key in o then Some(o[key]) else None
  }

  function ReadString(o: Fields, key: Key): Option<string> {
    if key in o && o[key].Str? then Some(o[key].s) else None
  }

  function OrEmpty(s: Option<string>): string {
    if s.Some? then s.value else ""
  }

  predicate IsAlnum(c: char) {
    'A' <= c <= 'Z' || 'a' <= c <= 'z' || '0' <= c <= '9'
  }

  predicate IsProject(s: string) {
    && 1 <= |s| <= 100 && IsAlnum(s[0])
    && forall i | 1 <= i < |s| :: IsAlnum(s[i]) || s[i] == '.' || s[i] == '_' || s[i] == '-'
  }

  predicate IsTagged(s: string, prefix: string) {
    && StartsWith(s, prefix) && 12 <= |s| - |prefix| <= 32
    && forall i | |prefix| <= i < |s| :: '0' <= s[i] <= '9' || 'a' <= s[i] <= 'f'
  }

  /** Backslashes count as separators. */
  function Forward(path: string): (r: string)
    ensures |r| == |path|
    ensures forall i | 0 <= i < |r| :: r[i] == if path[i] == '\\' then '/' else path[i]
  {
    if path == [] then [] else [if path[0] == '\\' then '/' else path[0]] + Forward(path[1..])
  }

  predicate NoClimbing(segments: seq<string>) {
    forall i | 0 <= i < |segments| :: segments[i] != ".." && Trim(segments[i]) != ".."
  }

  predicate HasDrive(path: string) {
    |path| >= 2 && ('A' <= path[0] <= 'Z' || 'a' <= path[0] <= 'z') && path[1] == ':'
  }

  predicate IsSafeRelativePath(path: string) {
    && path != [] && Length(path) <= MAX_PATH && '\0' !in path
    && var normalized := Forward(path);
    && !StartsWith(normalized, "/") && !HasDrive(normalized) && NoClimbing(Split(normalized, '/'))
  }

  // -------------------------------------------------------------------- validation

  /** A text the payload must have, trimmed. */
  function TextPayload(source: Fields, key: Key, error: string): Result<string> {
    var value := ReadString(source, key);
    if value.None? || Trim(value.value) == [] then Err(error) else Ok(Trim(value.value))
  }

  /** A unified diff has a hunk marker. */
  predicate HasHunk(patch: string) {
    exists i | 0 <= i < |patch| - 1 :: patch[i] == '@' && patch[i + 1] == '@'
  }

  function ValidatePatch(source: Fields): Result<Payload> {
    var patch := ReadString(source, KPatch);
    if patch.None? || Trim(patch.value) == [] then Err("file.patch requires payload.patch")
    else if !HasHunk(patch.value) then Err("payload.patch must be a unified diff")
    else Ok(PatchText(patch.value))
  }

  function ValidateDecision(source: Fields): Result<Payload> {
    var title := TextPayload(source, KTitle, "memory.decision requires payload.title");
    var context := TextPayload(source, KContext, "memory.decision requires payload.context");
    var decision := TextPayload(source, KDecision, "memory.decision requires payload.decision");
    var consequence := TextPayload(source, KConsequence, "memory.decision requires payload.consequence");
    if title.Err? then Err(title.error)
    else if context.Err? then Err(context.error)
    else if decision.Err? then Err(decision.error)
    else if consequence.Err? then Err(consequence.error)
    else Ok(Adr(title.value, context.value, decision.value, consequence.value))
  }

  function ValidatePayload(kind: ActionType, raw: Option<Json>): Result<Payload> {
    if raw.Some? && !raw.value.Obj? then Err("payload must be an object")
    else
      var source := if raw.Some? then raw.value.fields else map[];
      match kind
      case FilePatch => ValidatePatch(source)
      case FileCreate =>
        var content := ReadString(source, KContent);
        if content.None? then Err("file.create requires payload.content") else Ok(Content(content.value))
      case FileWrite =>
        var content := ReadString(source, KContent);
        if content.None? then Err("file.write requires payload.content") else Ok(Content(content.value))
      case MemoryAppend =>
        var content := TextPayload(source, KContent, "memory.append requires payload.content");
        if content.Err? then Err(content.error) else Ok(Content(content.value))
      case MemoryDecision => ValidateDecision(source)
      case TestRun =>
        var command := ReadString(source, KCommand);
        var known := CommandNamed(OrEmpty(command));
        if command.None? || known.None? then Err("test.run requires an allowed payload.command") else Ok(Run(known.value))
      case GitDiff =>
        if KStaged in source && !source[KStaged].Bool? then Err("git.diff payload.staged must be boolean")
        else Ok(Diff(KStaged in source && source[KStaged].value))
      case _ => Ok(NoPayload)
  }

  /** The memory document a target names, with or without its extension, in any case. */
  function ValidateMemoryTarget(lower: string -> string, target: Fields): Result<Document> {
    var raw := lower(Trim(OrEmpty(ReadString(target, KDocument))));
    if raw == [] then Err("memory actions require target.document")
    else
      var known := DocumentNamed(if EndsWith(raw, ".md") then raw else raw + ".md");
      if known.None? then Err("unknown memory document") else Ok(known.value)
  }

  function ValidateTarget(lower: string -> string, kind: ActionType, target: Fields): Result<Target> {
    var project := Trim(OrEmpty(ReadString(target, KProject)));
    if !IsProject(project) then Err("invalid project name")
    else if kind.IsMemory() then
      var document := ValidateMemoryTarget(lower, target);
      if document.Err? then Err(document.error)
      else Ok(Target(project, MemoryPath(document.value), Some(document.value)))
    else if kind.IsTool() then Ok(Target(project, ToolPath(kind), None))
    else
      var path := Trim(OrEmpty(ReadString(target, KPath)));
      if !IsSafeRelativePath(path) then Err("unsafe or invalid path") else Ok(Target(project, path, None))
  }

  function MemoryPath(d: Document): string {
    "memory" + ['/'] + d.Name()
  }

  /** A tool action's path is its own name with a slash for the dot. */
  function ToolPath(kind: ActionType): string {
    kind.Halves().0 + ['/'] + kind.Halves().1
  }

  /** JavaScript truthiness of an optional string. */
  predicate Given(s: Option<string>) {
    s.Some? && s.value != []
  }

  /** The identifiers, when given, match their patterns. */
  predicate IdsMatch(workflowId: Option<string>, stageId: Option<string>) {
    (Given(workflowId) ==> IsTagged(workflowId.value, "wf_")) && (Given(stageId) ==> IsTagged(stageId.value, "stg_"))
  }

  /** Two actions demand identifiers. */
  predicate IdsOk(kind: ActionType, workflowId: Option<string>, stageId: Option<string>) {
    && IdsMatch(workflowId, stageId)
    && (kind.TestRun? ==> Given(workflowId) && Given(stageId))
    && (kind.WorkflowStatus? ==> Given(workflowId))
  }

  /** Validate one JSON value. `lower` is the host's `toLowerCase`. */
  function ValidateAction(lower: string -> string, value: Json): Result<Action> {
    if !value.Obj? then Err("action block must be a JSON object")
    else
      var o := value.fields;
      if ReadString(o, KVersion) != Some(VERSION) then Err("unsupported protocol version")
      else
        var kind := ActionNamed(OrEmpty(ReadString(o, KAction)));
        if kind.None? then Err("unsupported action")
        else if KTarget !in o || !o[KTarget].Obj? then Err("target must be an object")
        else
          var target := ValidateTarget(lower, kind.value, o[KTarget].fields);
          if target.Err? then Err(target.error) else ValidateRest(kind.value, target.value, o)
  }

  function ValidateRest(kind: ActionType, target: Target, o: Fields): Result<Action> {
    var reason := Trim(OrEmpty(ReadString(o, KReason)));
    var risk := RiskNamed(OrEmpty(ReadString(o, KRisk)));
    var payload := ValidatePayload(kind, Field(o, KPayload));
    var workflowId, stageId := ReadString(o, KWorkflowId), ReadString(o, KStageId);
    if reason == [] then Err("reason is required")
    else if Length(reason) > MAX_REASON then Err("reason exceeds 500 characters")
    else if risk.None? then Err("invalid risk level")
    else if payload.Err? then Err(payload.error)
    else if !IdsMatch(workflowId, stageId) then Err("invalid workflow_id or stage_id")
    else if kind.TestRun? && (!Given(workflowId) || !Given(stageId)) then
      Err("test.run requires workflow_id and stage_id")
    else if kind.WorkflowStatus? && !Given(workflowId) then Err("workflow.status requires workflow_id")
    else Ok(Action(kind, target, reason, risk.value, payload.value, workflowId, stageId, true))
  }

  // --------------------------------------------------------------- what is accepted

  predicate TargetOk(kind: ActionType, t: Target) {
    && IsProject(t.project)
    && if kind.IsMemory() then t.document.Some? && t.path == MemoryPath(t.document.value)
       else if kind.IsTool() then t.document.None? && t.path == ToolPath(kind)
       else t.document.None? && Trimmed(t.path) && IsSafeRelativePath(t.path)
  }

  predicate Worded(s: string) {
    s != [] && Trimmed(s)
  }

  predicate PayloadOk(kind: ActionType, p: Payload) {
    match kind
    case FilePatch => p.PatchText? && !Blank(p.patch) && HasHunk(p.patch)
    case FileCreate => p.Content?
    case FileWrite => p.Content?
    case MemoryAppend => p.Content? && Worded(p.content)
    case MemoryDecision => p.Adr? && Worded(p.title) && Worded(p.context) && Worded(p.decision) && Worded(p.consequence)
    case TestRun => p.Run?
    case GitDiff => p.Diff?
    case _ => p.NoPayload?
  }

  /** The actions that validation can return. Approval is required of every one of them. */
  predicate WellFormed(a: Action) {
    && a.requiresApproval && TargetOk(a.kind, a.target) && PayloadOk(a.kind, a.payload)
    && Worded(a.reason) && Length(a.reason) <= MAX_REASON && IdsOk(a.kind, a.workflowId, a.stageId)
  }

  // ------------------------------------------- `JSON.parse(JSON.stringify(action))`

  /** Absent fields are left out. */
  function Put(o: Fields, key: Key, s: Option<string>): Fields {
    if s.Some? then o[key := Str(s.value)] else o
  }

  function PayloadJson(p: Payload): Fields {
    match p
    case NoPayload => map[]
    case Content(content) => map[KContent := Str(content)]
    case PatchText(patch) => map[KPatch := Str(patch)]
    case Adr(title, context, decision, consequence) =>
      map[KTitle := Str(title), KContext := Str(context), KDecision := Str(decision), KConsequence := Str(consequence)]
    case Run(command) => map[KCommand := Str(command.Name())]
    case Diff(staged) => map[KStaged := Bool(staged)]
  }

  function TargetJson(t: Target): Fields {
    Put(map[KProject := Str(t.project), KPath := Str(t.path)], KDocument,
        if t.document.Some? then Some(t.document.value.Name()) else None)
  }

  function ToJson(a: Action): (j: Json)
    ensures j.Obj?
  {
    Obj(Put(Put(map[KVersion := Str(VERSION), KAction := Str(a.kind.Name()), KTarget := Obj(TargetJson(a.target)),
                    KReason := Str(a.reason), KRisk := Str(a.risk.Name()), KPayload := Obj(PayloadJson(a.payload)),
                    KRequiresApproval := Bool(a.requiresApproval)],
                KWorkflowId, a.workflowId), KStageId, a.stageId))
  }

  /** Lower-casing leaves the documents' own names alone. */
  ghost predicate FixesDocuments(lower: string -> string) {
    forall d: Document :: lower(d.Name()) == d.Name()
  }

  lemma AcceptedTarget(lower: string -> string, kind: ActionType, target: Fields)
    requires ValidateTarget(lower, kind, target).Ok?
    ensures TargetOk(kind, ValidateTarget(lower, kind, target).value)
  {
    hide IsSafeRelativePath, IsProject, Trim, ToolPath, MemoryPath, ValidateMemoryTarget, Trimmed;
    TrimIsTrimmed(OrEmpty(ReadString(target, KPath)));
  }

  lemma AcceptedText(source: Fields, key: Key, error: string)
    ensures var r := TextPayload(source, key, error); r.Ok? ==> Worded(r.value)
  {
    TrimIsTrimmed(OrEmpty(ReadString(source, key)));
  }

  lemma AcceptedDecision(source: Fields)
    requires ValidateDecision(source).Ok?
    ensures PayloadOk(MemoryDecision, ValidateDecision(source).value)
  {
    hide TextPayload, Worded;
    AcceptedText(source, KTitle, "memory.decision requires payload.title");
    AcceptedText(source, KContext, "memory.decision requires payload.context");
    AcceptedText(source, KDecision, "memory.decision requires payload.decision");
    AcceptedText(source, KConsequence, "memory.decision requires payload.consequence");
  }

  lemma AcceptedPatch(source: Fields)
    requires ValidatePatch(source).Ok?
    ensures PayloadOk(FilePatch, ValidatePatch(source).value)
  {
    TrimEmptyIffBlank(ReadString(source, KPatch).value);
  }

  lemma AcceptedPayload(kind: ActionType, raw: Option<Json>)
    requires ValidatePayload(kind, raw).Ok?
    ensures PayloadOk(kind, ValidatePayload(kind, raw).value)
  {
    hide TextPayload, Worded, ValidateDecision, ValidatePatch, CommandNamed, HasHunk, Blank;
    var source := if raw.Some? then raw.value.fields else map[];
    match kind
    case FilePatch => AcceptedPatch(source);
    case MemoryAppend => AcceptedText(source, KContent, "memory.append requires payload.content");
    case MemoryDecision => AcceptedDecision(source);
    case _ =>
  }

  /** Whatever is accepted is well formed: trimmed, within the limits, and never exempt from approval. */
  lemma AcceptedIsWellFormed(lower: string -> string, value: Json)
    requires ValidateAction(lower, value).Ok?
    ensures WellFormed(ValidateAction(lower, value).value)
  {
    hide ValidateTarget, ValidatePayload, TargetOk, PayloadOk, Trim, Trimmed, ActionNamed, RiskNamed, IdsMatch;
    var o := value.fields;
    var kind := ActionNamed(OrEmpty(ReadString(o, KAction))).value;
    AcceptedTarget(lower, kind, o[KTarget].fields);
    AcceptedPayload(kind, Field(o, KPayload));
    TrimIsTrimmed(OrEmpty(ReadString(o, KReason)));
  }

  // ------------------------------------------------------------------- idempotence

  lemma NamedReads<T(!new)>(all: seq<T>, name: T -> string, x: T)
    requires x in all && forall y | y in all :: name(y) == name(x) ==> y == x
    ensures Named(all, name, name(x)) == Some(x)
  {
  }

  /** Length and two characters tell the action names apart. */
  function NameMark(a: ActionType): (nat, char, char) {
    match a
    case FileRead => (9, 'f', 'r')
    case FileCreate => (11, 'f', 'c')
    case FileWrite => (10, 'f', 'w')
    case FilePatch => (10, 'f', 'p')
    case MemoryRead => (11, 'm', 'y')
    case MemoryAppend => (13, 'm', 'y')
    case MemoryDecision => (15, 'm', 'y')
    case GitStatus => (10, 'g', 't')
    case GitDiff => (8, 'g', 'i')
    case TestRun => (8, 't', 'r')
    case WorkflowStatus => (15, 'w', 'l')
  }

  lemma ActionNameMark(a: ActionType)
    ensures |a.Name()| >= 8 && (|a.Name()|, a.Name()[0], a.Name()[5]) == NameMark(a)
  {
    var (left, right) := a.Halves();
    assert (|left| == 4 && a.Name()[5] == right[0])
        || (|left| == 6 && a.Name()[5] == left[5])
        || (|left| == 3 && a.Name()[5] == right[1])
        || (|left| == 8 && a.Name()[5] == left[5]);
  }

  lemma ActionIsRead(a: ActionType)
    ensures ActionNamed(a.Name()) == Some(a)
  {
    hide ActionType.Name;
    ActionNameMark(a);
    forall b: ActionType | b.Name() == a.Name()
      ensures b == a
    {
      ActionNameMark(b);
    }
    NamedReads([FileRead, FileCreate, FileWrite, FilePatch, MemoryRead, MemoryAppend, MemoryDecision, GitStatus, GitDiff,
                TestRun, WorkflowStatus], (k: ActionType) => k.Name(), a);
  }

  lemma RiskIsRead(r: Risk)
    ensures RiskNamed(r.Name()) == Some(r)
  {
    assert Low.Name()[0] == 'l' && Medium.Name()[0] == 'm' && High.Name()[0] == 'h';
    NamedReads([Low, Medium, High], (x: Risk) => x.Name(), r);
  }

  lemma CommandIsRead(c: Command)
    ensures CommandNamed(c.Name()) == Some(c)
  {
    assert Pytest.Name()[0] == 'p' && NpmTest.Name()[0] == 'n' && CmakeBuild.Name()[0] == 'c';
    NamedReads([Pytest, NpmTest, CmakeBuild], (x: Command) => x.Name(), c);
  }

  lemma DocumentIsRead(d: Document)
    ensures DocumentNamed(d.Name()) == Some(d)
  {
    assert ProjectMd.Name()[0] == 'p' && ArchitectureMd.Name()[0] == 'a' && DecisionsMd.Name()[0] == 'd'
        && TasksMd.Name()[0] == 't' && ChangelogMd.Name()[0] == 'c';
    NamedReads([ProjectMd, ArchitectureMd, DecisionsMd, TasksMd, ChangelogMd], (x: Document) => x.Name(), d);
  }

  lemma DocumentName(d: Document)
    ensures Trimmed(d.Name()) && d.Name() != [] && EndsWith(d.Name(), ".md")
    ensures forall c | c in d.Name() :: c != '/' && c != '\\'
  {
  }

  lemma ProjectIsTrimmed(project: string)
    requires IsProject(project)
    ensures Trim(project) == project
  {
    TrimFixesTrimmed(project);
  }

  lemma TargetAgain(lower: string -> string, kind: ActionType, t: Target)
    requires TargetOk(kind, t) && FixesDocuments(lower)
    ensures ValidateTarget(lower, kind, TargetJson(t)) == Ok(t)
  {
    hide IsSafeRelativePath, IsProject, Trim, Trimmed, EndsWith, DocumentNamed, ToolPath, MemoryPath, Document.Name,
         ActionType.IsMemory, ActionType.IsTool;
    ProjectIsTrimmed(t.project);
    if kind.IsMemory() {
      DocumentName(t.document.value);
      TrimFixesTrimmed(t.document.value.Name());
      DocumentIsRead(t.document.value);
    } else if !kind.IsTool() {
      TrimFixesTrimmed(t.path);
    }
  }

  lemma WordedAgain(source: Fields, key: Key, error: string, s: string)
    requires Worded(s) && ReadString(source, key) == Some(s)
    ensures TextPayload(source, key, error) == Ok(s)
  {
    TrimFixesTrimmed(s);
  }

  lemma PayloadAgain(kind: ActionType, p: Payload)
    requires PayloadOk(kind, p)
    ensures ValidatePayload(kind, Some(Obj(PayloadJson(p)))) == Ok(p)
  {
    hide Trim, TextPayload, Worded, CommandNamed, HasHunk;
    var source := PayloadJson(p);
    match kind
    case MemoryAppend => WordedAgain(source, KContent, "memory.append requires payload.content", p.content);
    case MemoryDecision =>
      WordedAgain(source, KTitle, "memory.decision requires payload.title", p.title);
      WordedAgain(source, KContext, "memory.decision requires payload.context", p.context);
      WordedAgain(source, KDecision, "memory.decision requires payload.decision", p.decision);
      WordedAgain(source, KConsequence, "memory.decision requires payload.consequence", p.consequence);
    case FilePatch => TrimEmptyIffBlank(p.patch);
    case TestRun => CommandIsRead(p.command);
    case _ =>
  }

  lemma FieldsAgain(a: Action)
    ensures var o := ToJson(a).fields;
      && ReadString(o, KVersion) == Some(VERSION) && ReadString(o, KAction) == Some(a.kind.Name())
      && Field(o, KTarget) == Some(Obj(TargetJson(a.target))) && Field(o, KPayload) == Some(Obj(PayloadJson(a.payload)))
      && ReadString(o, KReason) == Some(a.reason) && ReadString(o, KRisk) == Some(a.risk.Name())
      && ReadString(o, KWorkflowId) == a.workflowId && ReadString(o, KStageId) == a.stageId
  {
    hide TargetJson, PayloadJson, Risk.Name, ActionType.Name;
  }

  lemma RestAgain(a: Action)
    requires WellFormed(a)
    ensures ValidateRest(a.kind, a.target, ToJson(a).fields) == Ok(a)
  {
    hide ToJson, ValidatePayload, TargetOk, PayloadOk, PayloadJson, Trim, Trimmed, RiskNamed, IdsMatch, Length;
    FieldsAgain(a);
    PayloadAgain(a.kind, a.payload);
    TrimFixesTrimmed(a.reason);
    RiskIsRead(a.risk);
  }

  /** Validation accepts every well-formed action and returns it unchanged. */
  lemma WellFormedIsFixed(lower: string -> string, a: Action)
    requires WellFormed(a) && FixesDocuments(lower)
    ensures ValidateAction(lower, ToJson(a)) == Ok(a)
  {
    hide ToJson, ValidateTarget, ValidateRest, TargetOk, PayloadOk, ActionNamed;
    FieldsAgain(a);
    TargetAgain(lower, a.kind, a.target);
    ActionIsRead(a.kind);
    RestAgain(a);
  }

  /** Validating twice is validating once. */
  lemma ValidationIsIdempotent(lower: string -> string, value: Json)
    requires ValidateAction(lower, value).Ok? && FixesDocuments(lower)
    ensures ValidateAction(lower, ToJson(ValidateAction(lower, value).value)) == ValidateAction(lower, value)
  {
    hide *;
    AcceptedIsWellFormed(lower, value);
    WellFormedIsFixed(lower, ValidateAction(lower, value).value);
  }

  // ---------------------------------------------------------- exactly what is accepted

  /** Field `key` holds a string that trims to `s`. */
  predicate Reads(o: Fields, key: Key, s: string) {
    key in o && o[key].Str? && Trim(o[key].s) == s
  }

  predicate HoldsText(o: Fields, key: Key, s: string) {
    key in o && o[key] == Str(s)
  }

  /** An optional identifier: a string, or anything else, which counts as absent. */
  predicate Identifies(o: Fields, key: Key, id: Option<string>) {
    if id.Some? then HoldsText(o, key, id.value) else key in o ==> !o[key].Str?
  }

  predicate TargetMeans(lower: string -> string, kind: ActionType, o: Fields, t: Target) {
    && Reads(o, KProject, t.project)
    && if kind.IsMemory() then
         && t.document.Some? && t.path == "memory/" + t.document.value.Name()
         && KDocument in o && o[KDocument].Str?
         && lower(Trim(o[KDocument].s)) in {t.document.value.Stem(), t.document.value.Name()}
       else
         t.document.None? && if kind.IsTool() then t.path == ToolPath(kind) else Reads(o, KPath, t.path)
  }

  predicate PayloadMeans(kind: ActionType, f: Fields, p: Payload) {
    match kind
    case FilePatch => p.PatchText? && HoldsText(f, KPatch, p.patch)
    case FileCreate => p.Content? && HoldsText(f, KContent, p.content)
    case FileWrite => p.Content? && HoldsText(f, KContent, p.content)
    case MemoryAppend => p.Content? && Reads(f, KContent, p.content)
    case MemoryDecision =>
      && p.Adr? && Reads(f, KTitle, p.title) && Reads(f, KContext, p.context)
      && Reads(f, KDecision, p.decision) && Reads(f, KConsequence, p.consequence)
    case TestRun => p.Run? && HoldsText(f, KCommand, p.command.Name())
    case GitDiff => p.Diff? && if KStaged in f then f[KStaged] == Bool(p.staged) else !p.staged
    case _ => p.NoPayload?
  }

  /** JSON value `value` says action `a`, blanks around words aside. What else the value holds does not matter. */
  predicate Means(lower: string -> string, value: Json, a: Action) {
    && value.Obj?
    && var o := value.fields;
    && HoldsText(o, KVersion, "1.0") && HoldsText(o, KAction, a.kind.Name())
    && KTarget in o && o[KTarget].Obj? && TargetMeans(lower, a.kind, o[KTarget].fields, a.target)
    && Reads(o, KReason, a.reason) && HoldsText(o, KRisk, a.risk.Name())
    && (KPayload in o ==> o[KPayload].Obj?)
    && PayloadMeans(a.kind, if KPayload in o then o[KPayload].fields else map[], a.payload)
    && Identifies(o, KWorkflowId, a.workflowId) && Identifies(o, KStageId, a.stageId)
  }

  lemma NamedMeans<T>(all: seq<T>, name: T -> string, s: string)
    ensures Named(all, name, s).Some? ==> name(Named(all, name, s).value) == s
  {
  }

  lemma ActionNamedMeans(s: string, kind: ActionType)
    ensures ActionNamed(s) == Some(kind) <==> s == kind.Name()
  {
    ActionIsRead(kind);
    hide ActionType.Name;
    NamedMeans([FileRead, FileCreate, FileWrite, FilePatch, MemoryRead, MemoryAppend, MemoryDecision, GitStatus, GitDiff,
                TestRun, WorkflowStatus], (k: ActionType) => k.Name(), s);
  }

  lemma RiskNamedMeans(s: string, r: Risk)
    ensures RiskNamed(s) == Some(r) <==> s == r.Name()
  {
    RiskIsRead(r);
    NamedMeans([Low, Medium, High], (x: Risk) => x.Name(), s);
  }

  lemma CommandNamedMeans(s: string, c: Command)
    ensures CommandNamed(s) == Some(c) <==> s == c.Name()
  {
    CommandIsRead(c);
    NamedMeans([Pytest, NpmTest, CmakeBuild], (x: Command) => x.Name(), s);
  }

  lemma DocumentNamedMeans(s: string, d: Document)
    ensures DocumentNamed(s) == Some(d) <==> s == d.Name()
  {
    DocumentIsRead(d);
    NamedMeans([ProjectMd, ArchitectureMd, DecisionsMd, TasksMd, ChangelogMd], (x: Document) => x.Name(), s);
  }

  lemma DocumentGiven(raw: string, d: Document)
    ensures DocumentNamed(if EndsWith(raw, ".md") then raw else raw + ".md") == Some(d)
       <==> raw == d.Stem() || raw == d.Name()
  {
    DocumentNamedMeans(if EndsWith(raw, ".md") then raw else raw + ".md", d);
    DocumentName(d);
    StemHasNoExtension(d);
    if raw + ".md" == d.Name() {
      assert raw == (raw + ".md")[..|raw|] && d.Stem() == d.Name()[..|d.Stem()|];
    }
  }

  lemma StemHasNoExtension(d: Document)
    ensures !EndsWith(d.Stem(), ".md") && d.Stem() != []
  {
    var stem := d.Stem();
    assert stem[|stem| - 1] != 'd';
    assert |stem| >= 3 ==> stem[|stem| - 3..][2] == stem[|stem| - 1];
  }

  lemma TextRead(o: Fields, key: Key, s: string)
    requires s != []
    ensures Trim(OrEmpty(ReadString(o, key))) == s <==> Reads(o, key, s)
  {
    assert Trim("") == "";
  }

  lemma TextPayloadExactly(o: Fields, key: Key, error: string, s: string)
    ensures TextPayload(o, key, error) == Ok(s) <==> Reads(o, key, s) && s != []
  {
  }

  lemma DocumentRead(lower: string -> string, o: Fields, d: Document)
    requires lower("") == ""
    ensures ValidateMemoryTarget(lower, o) == Ok(d)
       <==> KDocument in o && o[KDocument].Str? && lower(Trim(o[KDocument].s)) in {d.Stem(), d.Name()}
  {
    hide EndsWith, DocumentNamed, Document.Name, Document.Stem;
    var raw := lower(Trim(OrEmpty(ReadString(o, KDocument))));
    assert Trim("") == "";
    DocumentGiven(raw, d);
    StemHasNoExtension(d);
    DocumentName(d);
  }

  lemma PathsAsWritten(d: Document)
    ensures MemoryPath(d) == "memory/" + d.Name()
  {
    assert "memory" + ['/'] == "memory/";
  }

  lemma EmptyIsNoName(t: Target)
    ensures IsProject(t.project) ==> t.project != []
    ensures IsSafeRelativePath(t.path) ==> t.path != []
  {
  }

  lemma TargetExactly(lower: string -> string, kind: ActionType, o: Fields, t: Target)
    requires lower("") == ""
    ensures ValidateTarget(lower, kind, o) == Ok(t) <==> TargetMeans(lower, kind, o, t) && TargetOk(kind, t)
  {
    hide IsSafeRelativePath, IsProject, Trim, Trimmed, ToolPath, MemoryPath, Document.Name, Document.Stem, Reads,
         ActionType.IsMemory, ActionType.IsTool, ValidateMemoryTarget;
    EmptyIsNoName(t);
    ProjectAndPath(o, t);
    if t.document.Some? {
      DocumentRead(lower, o, t.document.value);
      PathsAsWritten(t.document.value);
    }
  }

  lemma ProjectAndPath(o: Fields, t: Target)
    ensures IsProject(t.project) ==>
      (Trim(OrEmpty(ReadString(o, KProject))) == t.project <==> Reads(o, KProject, t.project))
    ensures IsSafeRelativePath(t.path) ==>
      (Trim(OrEmpty(ReadString(o, KPath))) == t.path <==> Reads(o, KPath, t.path))
    ensures Trimmed(Trim(OrEmpty(ReadString(o, KPath))))
  {
    EmptyIsNoName(t);
    hide IsProject, IsSafeRelativePath, Trim, Trimmed;
    if t.project != [] {
      TextRead(o, KProject, t.project);
    }
    if t.path != [] {
      TextRead(o, KPath, t.path);
    }
    TrimIsTrimmed(OrEmpty(ReadString(o, KPath)));
  }

  lemma DecisionExactly(f: Fields, p: Payload)
    ensures ValidateDecision(f) == Ok(p) <==> PayloadMeans(MemoryDecision, f, p) && PayloadOk(MemoryDecision, p)
  {
    hide TextPayload, Reads, Trimmed;
    if p.Adr? {
      TextPayloadExactly(f, KTitle, "memory.decision requires payload.title", p.title);
      TextPayloadExactly(f, KContext, "memory.decision requires payload.context", p.context);
      TextPayloadExactly(f, KDecision, "memory.decision requires payload.decision", p.decision);
      TextPayloadExactly(f, KConsequence, "memory.decision requires payload.consequence", p.consequence);
      ReadsTrimmed(f, KTitle, p.title);
      ReadsTrimmed(f, KContext, p.context);
      ReadsTrimmed(f, KDecision, p.decision);
      ReadsTrimmed(f, KConsequence, p.consequence);
    }
  }

  lemma ReadsTrimmed(o: Fields, key: Key, s: string)
    ensures Reads(o, key, s) ==> Trimmed(s)
  {
    if key in o && o[key].Str? {
      TrimIsTrimmed(o[key].s);
    }
  }

  lemma PatchExactly(f: Fields, p: Payload)
    ensures ValidatePatch(f) == Ok(p) <==> PayloadMeans(FilePatch, f, p) && PayloadOk(FilePatch, p)
  {
    hide Trim, Blank, HasHunk;
    if KPatch in f && f[KPatch].Str? {
      TrimEmptyIffBlank(f[KPatch].s);
    }
  }

  lemma PayloadExactly(kind: ActionType, raw: Option<Json>, p: Payload)
    ensures ValidatePayload(kind, raw) == Ok(p) <==>
      && (raw.Some? ==> raw.value.Obj?)
      && PayloadMeans(kind, if raw.Some? then raw.value.fields else map[], p) && PayloadOk(kind, p)
  {
    if raw.None? || raw.value.Obj? {
      hide TextPayload, Reads, ValidateDecision, ValidatePatch, CommandNamed, HasHunk, Blank, Trimmed, Command.Name;
      var f := if raw.Some? then raw.value.fields else map[];
      match kind
      case FilePatch => PatchExactly(f, p);
      case MemoryDecision => DecisionExactly(f, p);
      case MemoryAppend =>
        if p.Content? {
          TextPayloadExactly(f, KContent, "memory.append requires payload.content", p.content);
          ReadsTrimmed(f, KContent, p.content);
        }
      case TestRun =>
        if p.Run? {
          CommandNamedMeans(OrEmpty(ReadString(f, KCommand)), p.command);
          CommandIsNamed(p.command);
        }
      case _ =>
    }
  }

  lemma CommandIsNamed(c: Command)
    ensures c.Name() != []
  {
  }

  lemma RestExactly(kind: ActionType, target: Target, o: Fields, a: Action)
    ensures ValidateRest(kind, target, o) == Ok(a) <==>
      && a.kind == kind && a.target == target && a.requiresApproval
      && Reads(o, KReason, a.reason) && Worded(a.reason) && Length(a.reason) <= MAX_REASON
      && HoldsText(o, KRisk, a.risk.Name())
      && ValidatePayload(kind, Field(o, KPayload)) == Ok(a.payload)
      && Identifies(o, KWorkflowId, a.workflowId) && Identifies(o, KStageId, a.stageId)
      && IdsOk(kind, a.workflowId, a.stageId)
  {
    hide ValidatePayload, Trim, Trimmed, RiskNamed, IdsMatch, Length, Reads, Risk.Name;
    ReasonRead(o, a.reason);
    RiskNamedMeans(OrEmpty(ReadString(o, KRisk)), a.risk);
    RiskIsNamed(a.risk);
    ReadsTrimmed(o, KReason, a.reason);
    IdentifierRead(o, KWorkflowId, a.workflowId);
    IdentifierRead(o, KStageId, a.stageId);
  }

  lemma ReasonRead(o: Fields, reason: string)
    ensures reason != [] ==> (Trim(OrEmpty(ReadString(o, KReason))) == reason <==> Reads(o, KReason, reason))
  {
    if reason != [] {
      TextRead(o, KReason, reason);
    }
  }

  lemma RiskIsNamed(r: Risk)
    ensures r.Name() != []
  {
  }

  lemma IdentifierRead(o: Fields, key: Key, id: Option<string>)
    ensures ReadString(o, key) == id <==> Identifies(o, key, id)
  {
  }

  lemma ActionIsNamed(kind: ActionType)
    ensures kind.Name() != []
  {
  }

  /**
   * Validation accepts a value as an action exactly if the value says that action and the action is well
   * formed: nothing else is accepted, nothing that says a well-formed action is refused, and what is returned
   * is what was said.
   */
  lemma AcceptedExactlyWhen(lower: string -> string, value: Json, a: Action)
    requires lower("") == ""
    ensures ValidateAction(lower, value) == Ok(a) <==> Means(lower, value, a) && WellFormed(a)
  {
    hide ValidateTarget, ValidateRest, TargetMeans, PayloadMeans, TargetOk, PayloadOk, ActionNamed, ActionType.Name,
         Risk.Name, Reads, Identifies, Worded, Length, IdsOk, ValidatePayload;
    if value.Obj? {
      var o := value.fields;
      ActionNamedMeans(OrEmpty(ReadString(o, KAction)), a.kind);
      ActionIsNamed(a.kind);
      RestExactly(a.kind, a.target, o, a);
      PayloadExactly(a.kind, Field(o, KPayload), a.payload);
      if KTarget in o && o[KTarget].Obj? {
        TargetExactly(lower, a.kind, o[KTarget].fields, a.target);
      }
      RestKeepsKind(lower, value, a);
    }
  }

  lemma RestKeepsKind(lower: string -> string, value: Json, a: Action)
    requires value.Obj?
    ensures var o := value.fields;
      ValidateAction(lower, value) == Ok(a) <==>
        && ReadString(o, KVersion) == Some(VERSION) && ActionNamed(OrEmpty(ReadString(o, KAction))) == Some(a.kind)
        && KTarget in o && o[KTarget].Obj? && ValidateTarget(lower, a.kind, o[KTarget].fields) == Ok(a.target)
        && ValidateRest(a.kind, a.target, o) == Ok(a)
  {
    hide ValidateTarget, ValidatePayload, ActionNamed, RiskNamed, IdsMatch, Trim;
  }

  // ------------------------------------------------------------ staying under the root

  /** Where a path leads from `root`, one segment at a time; `trims` for a file system that ignores blanks. */
  function Walk(root: seq<string>, segments: seq<string>, trims: bool): seq<string> {
    if segments == [] then root
    else
      var n := |segments| - 1;
      var here := Walk(root, segments[..n], trims);
      var name := if trims then Trim(segments[n]) else segments[n];
      if name == "" || name == "." then here
      else if name == ".." then (if here == [] then [] else here[..|here| - 1])
      else here + [name]
  }

  lemma {:induction false} WalkStaysUnder(root: seq<string>, segments: seq<string>, trims: bool)
    requires NoClimbing(segments)
    ensures root <= Walk(root, segments, trims)
  {
    hide Trim;
    if segments != [] {
      assert NoClimbing(segments[..|segments| - 1]);
      WalkStaysUnder(root, segments[..|segments| - 1], trims);
    }
  }

  lemma {:induction false} ForwardPlain(s: string)
    requires '\\' !in s
    ensures Forward(s) == s
  {
  }

  /** A word without separators that is not two dots. */
  predicate PlainWord(s: string) {
    Trimmed(s) && s != ".." && '/' !in s && '\\' !in s
  }

  /** A path of two plain words. */
  lemma TwoWordsDoNotClimb(a: string, b: string)
    requires PlainWord(a) && PlainWord(b)
    ensures NoClimbing(Split(Forward(a + ['/'] + b), '/'))
  {
    hide Forward, Split, Trim;
    assert '\\' !in a + ['/'] + b;
    ForwardPlain(a + ['/'] + b);
    SplitAppend(a, b, '/');
    SplitNone(a, '/');
    SplitNone(b, '/');
    assert Split(a + ['/'] + b, '/') == [a, b];
    TrimFixesTrimmed(a);
    TrimFixesTrimmed(b);
  }

  lemma HalvesArePlain(kind: ActionType)
    ensures PlainWord(kind.Halves().0) && PlainWord(kind.Halves().1)
  {
  }

  lemma PathsDoNotClimb(kind: ActionType, t: Target)
    requires TargetOk(kind, t)
    ensures NoClimbing(Split(Forward(t.path), '/'))
  {
    hide Split, Forward, NoClimbing, Trimmed;
    if kind.IsMemory() {
      var name := t.document.value.Name();
      DocumentName(t.document.value);
      HalvesArePlain(MemoryRead);
      TwoWordsDoNotClimb("memory", name);
    } else if kind.IsTool() {
      HalvesArePlain(kind);
      TwoWordsDoNotClimb(kind.Halves().0, kind.Halves().1);
    }
  }

  /** A part between slashes without a backslash is a part between separators of either kind. */
  lemma {:induction false} PlainPartStays(s: string)
    ensures var narrow, wide := Split(Forward(s), '/'), Split(s, '/');
      && ('\\' !in wide[0] ==> narrow[0] == wide[0])
      && (forall i | 1 <= i < |wide| && '\\' !in wide[i] :: wide[i] in narrow[1..])
  {
    if s != [] {
      PlainPartStays(s[1..]);
      var narrow, wide := Split(Forward(s[1..]), '/'), Split(s[1..], '/');
      assert Forward(s)[1..] == Forward(s[1..]);
      if s[0] == '/' || s[0] == '\\' {
        assert Split(Forward(s), '/') == [[]] + narrow && Split(Forward(s), '/')[1..] == narrow;
        assert narrow == [narrow[0]] + narrow[1..];
      }
    }
  }

  lemma BackslashDoesNotClimb(segment: string)
    requires '\\' in segment
    ensures segment != ".." && Trim(segment) != ".."
  {
    var start, middle := TrimStart(segment), Trim(segment);
    TrimStartShape(segment);
    TrimEndShape(start);
    var k :| 0 <= k < |segment| && segment[k] == '\\';
    var j := k - (|segment| - |start|);
    assert j >= 0 && start[j] == '\\';
    assert j < |middle| && middle[j] == '\\';
    assert ".."[0] == ".."[1] == '.';
  }

  /** What does not climb with both separators does not climb with slashes alone. */
  lemma FewerSeparatorsClimbLess(path: string)
    requires NoClimbing(Split(Forward(path), '/'))
    ensures NoClimbing(Split(path, '/'))
  {
    hide Split, Forward, Trim;
    PlainPartStays(path);
    var narrow, wide := Split(Forward(path), '/'), Split(path, '/');
    forall i | 0 <= i < |wide|
      ensures wide[i] != ".." && Trim(wide[i]) != ".."
    {
      if '\\' in wide[i] {
        BackslashDoesNotClimb(wide[i]);
      } else {
        assert narrow == [narrow[0]] + narrow[1..];
        assert wide[i] in narrow;
      }
    }
  }

  /** The parts of a path, for a file system that knows one separator or both. */
  function PathParts(path: string, backslashes: bool): seq<string> {
    Split(if backslashes then Forward(path) else path, '/')
  }

  /** Every accepted path stays under its root after every segment, whatever separates segments and blanks mean. */
  lemma AcceptedPathStaysUnderRoot(lower: string -> string, value: Json, root: seq<string>, n: nat, trims: bool,
                                   backslashes: bool)
    requires ValidateAction(lower, value).Ok?
    requires n <= |PathParts(ValidateAction(lower, value).value.target.path, backslashes)|
    ensures root <= Walk(root, PathParts(ValidateAction(lower, value).value.target.path, backslashes)[..n], trims)
  {
    hide ValidateAction, TargetOk, PayloadOk, Split, Forward, Trim;
    AcceptedIsWellFormed(lower, value);
    var a := ValidateAction(lower, value).value;
    PathsDoNotClimb(a.kind, a.target);
    FewerSeparatorsClimbLess(a.target.path);
    WalkStaysUnder(root, PathParts(a.target.path, backslashes)[..n], trims);
  }
}
