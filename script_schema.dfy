/** The `script` block of the configuration language: the parsed block as the validator
    receives it, the error kinds it reports, the values it produces, and the functions
    that say, for a whole block at once, which errors are due and what is parsed. */
module ScriptSchema {

  import opened Wrappers

  /** An attribute's value after evaluation. A bracketed literal `[a, b]` evaluates to a
      tuple; `VList` is a value of list type; `VEvalErr` is an evaluation that reported
      errors and so returned an unknown value. */
  datatype Value =
    | VStr(s: string)
    | VNum(n: int)
    | VBool(b: bool)
    | VList(elems: seq<Value>)
    | VTuple(elems: seq<Value>)
    | VEvalErr

  datatype Attr = Attr(name: string, value: Value)

  /** A block: its type (`script`, `job`, ...), its labels, its attributes and its nested
      blocks, each in source order. */
  datatype Block = Block(typ: string, labels: seq<string>, attrs: seq<Attr>, blocks: seq<Block>)

  /** The error kinds of a script block. `InvalidJob` is declared by the source but never
      reported. */
  datatype ErrKind =
    | NoAttrs | NoBlocks | EmptyLabel | TwoLabels | InvalidDesc | UnknownAttr
    | UnknownBlock | InvalidJob | InvalidCmd | InvalidCmds | CmdConflict

  const SchemaPrefix: string := "terramate schema error: (script): "

  /** The text of each error kind: the schema prefix and then the kind's own text. */
  function Message(k: ErrKind): (m: string)
    ensures |SchemaPrefix| < |m| && m[..|SchemaPrefix|] == SchemaPrefix
    ensures m[|SchemaPrefix|..] == KindText(k)
  {
    SchemaPrefix + KindText(k)
  }

  function KindText(k: ErrKind): string {
    match k
    case NoAttrs => "no attributes defined"
    case NoBlocks => "no blocks defined"
    case EmptyLabel => "must provide labels"
    case TwoLabels => "must provide exactly two labels"
    case InvalidDesc => "invalid description"
    case UnknownAttr => "unknown attribute"
    case UnknownBlock => "unknown block"
    case InvalidJob => "invalid job"
    case InvalidCmd => "invalid command"
    case InvalidCmds => "invalid commands"
    case CmdConflict => "command and commands both set"
  }

  /** One job of a script: the `command` attribute, if set, and the `commands` lists. */
  datatype Job = Job(command: Option<Attr>, commands: seq<seq<string>>)

  /** A parsed script block. */
  datatype Script = Script(labels: seq<string>, description: Option<Attr>, jobs: seq<Job>)

  /** The value converts to a list of strings: a list or tuple all of whose elements are
      strings. */
  predicate IsStringList(v: Value) {
    (v.VList? || v.VTuple?) && forall i | 0 <= i < |v.elems| :: v.elems[i].VStr?
  }

  /** The strings of a list of strings, in order. */
  function Strings(v: Value): (r: seq<string>)
    requires IsStringList(v)
    ensures |r| == |v.elems| && forall i | 0 <= i < |r| :: r[i] == v.elems[i].s
  {
    seq(|v.elems|, i requires 0 <= i < |v.elems| => v.elems[i].s)
  }

  /** A valid `commands` value: a tuple each of whose elements is a list of strings. */
  predicate IsCommandList(v: Value) {
    v.VTuple? && forall i | 0 <= i < |v.elems| :: IsStringList(v.elems[i])
  }

  /** The command lists of a valid `commands` value, one per element and in order. */
  function CommandsOf(v: Value): (r: seq<seq<string>>)
    requires IsCommandList(v)
    ensures |r| == |v.elems| && forall i | 0 <= i < |r| :: r[i] == Strings(v.elems[i])
  {
    seq(|v.elems|, i requires 0 <= i < |v.elems| => Strings(v.elems[i]))
  }

  /** `validateDescription`, with a non-string value reported as invalid (the source
      panics on one, see DescriptionAsWritten). */
  function ValidateDescription(a: Attr): (r: Option<Attr>)
    ensures r.Some? <==> a.value.VStr? && a.value.s != ""
    ensures r.Some? ==> r.value == a
  {
    match a.value
    case VStr(s) => if s == "" then None else Some(a)
    case _ => None
  }

  /** What `validateDescription` does as written: an evaluation error and an empty string
      are rejected; any other non-string value reaches the string conversion, which
      panics. */
  datatype DescOutcome = DescAccepted(attr: Attr) | DescRejected | DescPanics

  function DescriptionAsWritten(a: Attr): (r: DescOutcome)
    ensures r.DescPanics? <==> !a.value.VEvalErr? && !a.value.VStr?
    ensures r.DescAccepted? <==> a.value.VStr? && a.value.s != ""
    ensures r.DescAccepted? ==> r.attr == a
  {
    match a.value
    case VEvalErr => DescRejected
    case VStr(s) => if s == "" then DescRejected else DescAccepted(a)
    case _ => DescPanics
  }

  /** `validateCommand`: the command is kept as its attribute when its value is a list of
      strings. */
  function ValidateCommand(a: Attr): (r: Option<Attr>)
    ensures r.Some? <==> IsStringList(a.value)
    ensures r.Some? ==> r.value == a
  {
    if IsStringList(a.value) then Some(a) else None
  }

  /** What `validateCommands` does as written: it goes on after a failed evaluation or a
      wrong type, so a string, number or boolean (not a collection) and the unknown value
      of a failed evaluation panic when their elements are taken; a list is rejected, and
      a tuple is accepted exactly when it is a tuple of string lists. */
  datatype CmdsOutcome = CmdsAccepted(cmds: seq<seq<string>>) | CmdsRejected | CmdsPanics

  function CommandsAsWritten(a: Attr): (r: CmdsOutcome)
    ensures r.CmdsPanics? <==> a.value.VStr? || a.value.VNum? || a.value.VBool? || a.value.VEvalErr?
    ensures r.CmdsAccepted? <==> IsCommandList(a.value)
    ensures r.CmdsAccepted? ==> r.cmds == CommandsOf(a.value)
  {
    match a.value
    case VStr(_) => CmdsPanics
    case VNum(_) => CmdsPanics
    case VBool(_) => CmdsPanics
    case VEvalErr => CmdsPanics
    case VList(_) => CmdsRejected
    case VTuple(_) => if IsCommandList(a.value) then CmdsAccepted(CommandsOf(a.value)) else CmdsRejected
  }

  /** The number of elements of `s` that satisfy `p`. */
  function CountIf<T>(s: seq<T>, p: T -> bool): nat {
    if |s| == 0 then 0 else CountIf(s[..|s| - 1], p) + (if p(s[|s| - 1]) then 1 else 0)
  }

  // ---- job blocks ----

  /** The error one attribute of a job block adds. */
  function JobAttrError(a: Attr): seq<ErrKind> {
    if a.name == "command" then (if IsStringList(a.value) then [] else [InvalidCmd])
    else if a.name == "commands" then (if IsCommandList(a.value) then [] else [InvalidCmds])
    else [UnknownAttr]
  }

  /** The errors the attributes of a job block add, in order. */
  function JobAttrErrors(attrs: seq<Attr>): seq<ErrKind> {
    if |attrs| == 0 then [] else JobAttrErrors(attrs[..|attrs| - 1]) + JobAttrError(attrs[|attrs| - 1])
  }

  /** Some attribute is a valid `command`. */
  predicate FoundCommand(attrs: seq<Attr>) {
    exists i | 0 <= i < |attrs| :: attrs[i].name == "command" && IsStringList(attrs[i].value)
  }

  /** Some attribute is a valid `commands`. */
  predicate FoundCommands(attrs: seq<Attr>) {
    exists i | 0 <= i < |attrs| :: attrs[i].name == "commands" && IsCommandList(attrs[i].value)
  }

  /** All errors of a job block with these attributes. */
  function JobErrors(attrs: seq<Attr>): seq<ErrKind> {
    JobAttrErrors(attrs) + (if FoundCommand(attrs) && FoundCommands(attrs) then [CmdConflict] else [])
  }

  /** The job the attributes build: each valid `command` / `commands` sets its field. */
  function JobOf(attrs: seq<Attr>): Job {
    if |attrs| == 0 then Job(None, [])
    else
      var j := JobOf(attrs[..|attrs| - 1]);
      var a := attrs[|attrs| - 1];
      if a.name == "command" && IsStringList(a.value) then j.(command := Some(a))
      else if a.name == "commands" && IsCommandList(a.value) then j.(commands := CommandsOf(a.value))
      else j
  }

  // ---- script blocks ----

  function LabelErrors(labels: seq<string>): seq<ErrKind> {
    if |labels| != 2 then [TwoLabels]
    else if labels[0] == "" then [EmptyLabel]
    else []
  }

  /** The error one attribute of a script block adds. */
  function ScriptAttrError(a: Attr): seq<ErrKind> {
    if a.name == "description" then (if ValidateDescription(a).Some? then [] else [InvalidDesc])
    else [UnknownAttr]
  }

  function ScriptAttrErrors(attrs: seq<Attr>): seq<ErrKind> {
    if |attrs| == 0 then [] else ScriptAttrErrors(attrs[..|attrs| - 1]) + ScriptAttrError(attrs[|attrs| - 1])
  }

  /** The description the attributes set: the last valid one. */
  function DescriptionOf(attrs: seq<Attr>): Option<Attr> {
    if |attrs| == 0 then None
    else
      var a := attrs[|attrs| - 1];
      if a.name == "description" && ValidateDescription(a).Some? then Some(a)
      else DescriptionOf(attrs[..|attrs| - 1])
  }

  /** The errors one nested block of a script adds. */
  function NestedBlockError(b: Block): seq<ErrKind> {
    if b.typ == "job" then JobErrors(b.attrs) else [UnknownBlock]
  }

  function NestedBlockErrors(blocks: seq<Block>): seq<ErrKind> {
    if |blocks| == 0 then []
    else NestedBlockErrors(blocks[..|blocks| - 1]) + NestedBlockError(blocks[|blocks| - 1])
  }

  /** The jobs of the `job` blocks, in order. */
  function JobsOf(blocks: seq<Block>): seq<Job> {
    if |blocks| == 0 then []
    else
      var b := blocks[|blocks| - 1];
      JobsOf(blocks[..|blocks| - 1]) + (if b.typ == "job" then [JobOf(b.attrs)] else [])
  }

  /** All errors of a script block, in the order they are reported. */
  function ScriptErrors(b: Block): seq<ErrKind> {
    LabelErrors(b.labels)
    + (if |b.attrs| == 0 then [NoAttrs] else [])
    + ScriptAttrErrors(b.attrs)
    + (if |b.blocks| == 0 then [NoBlocks] else [])
    + NestedBlockErrors(b.blocks)
  }
}
