/** What the script validator promises, stated over the functions of ScriptSchema (which
    the methods of ScriptParser are proved to compute). */
module ScriptProperties {

  import opened Wrappers
  import opened ScriptSchema

  predicate IsUnknownScriptAttr(a: Attr) { a.name != "description" }
  predicate IsRejectedDescription(a: Attr) { a.name == "description" && ValidateDescription(a).None? }
  predicate IsUnknownJobAttr(a: Attr) { a.name != "command" && a.name != "commands" }
  predicate IsInvalidCommand(a: Attr) { a.name == "command" && !IsStringList(a.value) }
  predicate IsInvalidCommands(a: Attr) { a.name == "commands" && !IsCommandList(a.value) }
  predicate IsJobBlock(b: Block) { b.typ == "job" }
  predicate IsUnknownBlock(b: Block) { b.typ != "job" }

  /** An attribute a job block accepts without error. */
  predicate AcceptedJobAttr(a: Attr) {
    (a.name == "command" && IsStringList(a.value)) || (a.name == "commands" && IsCommandList(a.value))
  }

  // ---- which kinds each part can report ----

  lemma {:induction false} ScriptAttrErrorKinds(attrs: seq<Attr>)
    ensures forall k :: k in ScriptAttrErrors(attrs) ==> k == InvalidDesc || k == UnknownAttr
  {
    if |attrs| > 0 {
      ScriptAttrErrorKinds(attrs[..|attrs| - 1]);
    }
  }

  lemma {:induction false} JobAttrErrorKinds(attrs: seq<Attr>)
    ensures forall k :: k in JobAttrErrors(attrs) ==> k == InvalidCmd || k == InvalidCmds || k == UnknownAttr
  {
    if |attrs| > 0 {
      JobAttrErrorKinds(attrs[..|attrs| - 1]);
    }
  }

  lemma {:induction false} NestedBlockErrorKinds(blocks: seq<Block>)
    ensures forall k :: k in NestedBlockErrors(blocks) ==>
              k == InvalidCmd || k == InvalidCmds || k == UnknownAttr || k == CmdConflict || k == UnknownBlock
  {
    if |blocks| > 0 {
      NestedBlockErrorKinds(blocks[..|blocks| - 1]);
      JobAttrErrorKinds(blocks[|blocks| - 1].attrs);
    }
  }

  /** `ErrScriptInvalidJob` is declared but no script block ever reports it. */
  lemma InvalidJobNeverReported(b: Block)
    ensures InvalidJob !in ScriptErrors(b)
  {
    ScriptAttrErrorKinds(b.attrs);
    NestedBlockErrorKinds(b.blocks);
  }

  // ---- labels ----

  lemma NoLabelKinds(attrs: seq<Attr>, blocks: seq<Block>)
    ensures TwoLabels !in ScriptAttrErrors(attrs) && EmptyLabel !in ScriptAttrErrors(attrs)
    ensures TwoLabels !in NestedBlockErrors(blocks) && EmptyLabel !in NestedBlockErrors(blocks)
  {
    ScriptAttrErrorKinds(attrs);
    NestedBlockErrorKinds(blocks);
  }

  /** A label count other than two reports `TwoLabels`; otherwise an empty first label
      reports `EmptyLabel`; never both, and each at most once. */
  lemma LabelErrorsExclusive(b: Block)
    ensures TwoLabels in ScriptErrors(b) <==> |b.labels| != 2
    ensures EmptyLabel in ScriptErrors(b) <==> |b.labels| == 2 && b.labels[0] == ""
    ensures !(TwoLabels in ScriptErrors(b) && EmptyLabel in ScriptErrors(b))
    ensures multiset(ScriptErrors(b))[TwoLabels] <= 1 && multiset(ScriptErrors(b))[EmptyLabel] <= 1
  {
    NoLabelKinds(b.attrs, b.blocks);
    var rest := (if |b.attrs| == 0 then [NoAttrs] else []) + ScriptAttrErrors(b.attrs)
                + (if |b.blocks| == 0 then [NoBlocks] else []) + NestedBlockErrors(b.blocks);
    assert TwoLabels !in rest && EmptyLabel !in rest;
    RegroupAfterFirst(LabelErrors(b.labels), if |b.attrs| == 0 then [NoAttrs] else [], ScriptAttrErrors(b.attrs),
                      if |b.blocks| == 0 then [NoBlocks] else [], NestedBlockErrors(b.blocks));
    LabelKindsOnlyInPrefix(LabelErrors(b.labels), rest, ScriptErrors(b));
    LabelErrorsCases(b.labels);
  }

  lemma LabelErrorsCases(labels: seq<string>)
    ensures TwoLabels in LabelErrors(labels) <==> |labels| != 2
    ensures EmptyLabel in LabelErrors(labels) <==> |labels| == 2 && labels[0] == ""
    ensures multiset(LabelErrors(labels))[TwoLabels] <= 1 && multiset(LabelErrors(labels))[EmptyLabel] <= 1
  {
  }

  lemma RegroupAfterFirst(a: seq<ErrKind>, b: seq<ErrKind>, c: seq<ErrKind>, d: seq<ErrKind>, e: seq<ErrKind>)
    ensures a + b + c + d + e == a + (b + c + d + e)
  {
  }

  /** Label kinds found in `errs = labels + rest`, where `rest` has none, come from `labels`. */
  lemma LabelKindsOnlyInPrefix(labels: seq<ErrKind>, rest: seq<ErrKind>, errs: seq<ErrKind>)
    requires errs == labels + rest
    requires TwoLabels !in rest && EmptyLabel !in rest
    ensures TwoLabels in errs <==> TwoLabels in labels
    ensures EmptyLabel in errs <==> EmptyLabel in labels
    ensures multiset(errs)[TwoLabels] == multiset(labels)[TwoLabels]
    ensures multiset(errs)[EmptyLabel] == multiset(labels)[EmptyLabel]
  {
    assert multiset(errs) == multiset(labels) + multiset(rest);
  }

  // ---- missing attributes and blocks ----

  /** No attributes reports `NoAttrs`, no nested blocks reports `NoBlocks`; with neither,
      both are reported, `NoAttrs` first, after any label error and nothing else. */
  lemma MissingAttrsAndBlocks(b: Block)
    ensures NoAttrs in ScriptErrors(b) <==> |b.attrs| == 0
    ensures NoBlocks in ScriptErrors(b) <==> |b.blocks| == 0
    ensures |b.attrs| == 0 && |b.blocks| == 0 ==> ScriptErrors(b) == LabelErrors(b.labels) + [NoAttrs, NoBlocks]
  {
    NoMissingKinds(b.attrs, b.blocks);
  }

  lemma NoMissingKinds(attrs: seq<Attr>, blocks: seq<Block>)
    ensures NoAttrs !in ScriptAttrErrors(attrs) && NoBlocks !in ScriptAttrErrors(attrs)
    ensures NoAttrs !in NestedBlockErrors(blocks) && NoBlocks !in NestedBlockErrors(blocks)
  {
    ScriptAttrErrorKinds(attrs);
    NestedBlockErrorKinds(blocks);
  }

  // ---- one error per offender ----

  /** Every script attribute other than `description` adds exactly one `UnknownAttr`, and
      every rejected description exactly one `InvalidDesc`. */
  lemma {:induction false} ScriptAttrErrorsPerOffender(attrs: seq<Attr>)
    ensures multiset(ScriptAttrErrors(attrs))[UnknownAttr] == CountIf(attrs, IsUnknownScriptAttr)
    ensures multiset(ScriptAttrErrors(attrs))[InvalidDesc] == CountIf(attrs, IsRejectedDescription)
    ensures |ScriptAttrErrors(attrs)| == CountIf(attrs, IsUnknownScriptAttr) + CountIf(attrs, IsRejectedDescription)
  {
    if |attrs| > 0 {
      ScriptAttrErrorsPerOffender(attrs[..|attrs| - 1]);
    }
  }

  /** Every job attribute other than `command` and `commands` adds exactly one
      `UnknownAttr` to the job's errors. */
  lemma {:induction false} JobUnknownAttrPerOffender(attrs: seq<Attr>)
    ensures multiset(JobErrors(attrs))[UnknownAttr] == CountIf(attrs, IsUnknownJobAttr)
  {
    JobAttrUnknownCount(attrs);
  }

  lemma {:induction false} JobAttrUnknownCount(attrs: seq<Attr>)
    ensures multiset(JobAttrErrors(attrs))[UnknownAttr] == CountIf(attrs, IsUnknownJobAttr)
  {
    if |attrs| > 0 {
      JobAttrUnknownCount(attrs[..|attrs| - 1]);
    }
  }

  /** Every `command` that is not a list of strings adds exactly one `InvalidCmd`, and
      every `commands` that is not a tuple of string lists exactly one `InvalidCmds`. */
  lemma InvalidCommandPerOffender(attrs: seq<Attr>)
    ensures multiset(JobErrors(attrs))[InvalidCmd] == CountIf(attrs, IsInvalidCommand)
    ensures multiset(JobErrors(attrs))[InvalidCmds] == CountIf(attrs, IsInvalidCommands)
  {
    JobAttrInvalidCmdCount(attrs);
    JobAttrInvalidCmdsCount(attrs);
  }

  lemma {:induction false} JobAttrInvalidCmdCount(attrs: seq<Attr>)
    ensures multiset(JobAttrErrors(attrs))[InvalidCmd] == CountIf(attrs, IsInvalidCommand)
  {
    if |attrs| > 0 {
      JobAttrInvalidCmdCount(attrs[..|attrs| - 1]);
    }
  }

  lemma {:induction false} JobAttrInvalidCmdsCount(attrs: seq<Attr>)
    ensures multiset(JobAttrErrors(attrs))[InvalidCmds] == CountIf(attrs, IsInvalidCommands)
  {
    if |attrs| > 0 {
      JobAttrInvalidCmdsCount(attrs[..|attrs| - 1]);
    }
  }

  /** Every nested block that is not a `job` adds exactly one `UnknownBlock`. */
  lemma {:induction false} UnknownBlockPerOffender(blocks: seq<Block>)
    ensures multiset(NestedBlockErrors(blocks))[UnknownBlock] == CountIf(blocks, IsUnknownBlock)
  {
    if |blocks| > 0 {
      var init := blocks[..|blocks| - 1];
      var last := blocks[|blocks| - 1];
      UnknownBlockPerOffender(init);
      UnknownBlockOfOne(last);
      assert multiset(NestedBlockErrors(blocks)) == multiset(NestedBlockErrors(init)) + multiset(NestedBlockError(last));
    }
  }

  lemma UnknownBlockOfOne(b: Block)
    ensures multiset(NestedBlockError(b))[UnknownBlock] == if IsUnknownBlock(b) then 1 else 0
  {
    if b.typ == "job" {
      JobAttrErrorKinds(b.attrs);
      assert UnknownBlock !in JobErrors(b.attrs);
    }
  }

  // ---- descriptions ----

  /** An empty description adds `InvalidDesc` and does not set the description. */
  lemma EmptyDescriptionRejected(attrs: seq<Attr>)
    ensures var attrs' := attrs + [Attr("description", VStr(""))];
            ScriptAttrErrors(attrs') == ScriptAttrErrors(attrs) + [InvalidDesc]
            && DescriptionOf(attrs') == DescriptionOf(attrs)
  {
    var attrs' := attrs + [Attr("description", VStr(""))];
    assert attrs'[..|attrs'| - 1] == attrs;
  }

  /** The description set is a valid `description` attribute of the block, and one is set
      exactly when the block has one. */
  lemma {:induction false} DescriptionOfIsValid(attrs: seq<Attr>)
    ensures DescriptionOf(attrs).Some? <==>
              exists i | 0 <= i < |attrs| :: attrs[i].name == "description" && ValidateDescription(attrs[i]).Some?
    ensures DescriptionOf(attrs).Some? ==>
              DescriptionOf(attrs).value in attrs && DescriptionOf(attrs).value.name == "description"
              && DescriptionOf(attrs).value.value.VStr? && DescriptionOf(attrs).value.value.s != ""
  {
    if |attrs| > 0 {
      var init := attrs[..|attrs| - 1];
      DescriptionOfIsValid(init);
      if exists i | 0 <= i < |init| :: init[i].name == "description" && ValidateDescription(init[i]).Some? {
        var i :| 0 <= i < |init| && init[i].name == "description" && ValidateDescription(init[i]).Some?;
        assert attrs[i] == init[i];
      }
      if exists i | 0 <= i < |attrs| :: attrs[i].name == "description" && ValidateDescription(attrs[i]).Some? {
        var i :| 0 <= i < |attrs| && attrs[i].name == "description" && ValidateDescription(attrs[i]).Some?;
        if i < |init| {
          assert init[i] == attrs[i];
        }
      }
      if DescriptionOf(init).Some? {
        assert DescriptionOf(init).value in attrs;
      }
    }
  }

  // ---- jobs ----

  /** `command` and `commands` conflict exactly when both were accepted. */
  lemma CmdConflictIffBoth(attrs: seq<Attr>)
    ensures CmdConflict in JobErrors(attrs) <==> FoundCommand(attrs) && FoundCommands(attrs)
  {
    JobAttrErrorKinds(attrs);
  }

  lemma {:induction false} JobAttrErrorsEmpty(attrs: seq<Attr>)
    ensures JobAttrErrors(attrs) == [] <==> forall i | 0 <= i < |attrs| :: AcceptedJobAttr(attrs[i])
  {
    if |attrs| > 0 {
      var init := attrs[..|attrs| - 1];
      JobAttrErrorsEmpty(init);
      if forall i | 0 <= i < |attrs| :: AcceptedJobAttr(attrs[i]) {
        assert forall i | 0 <= i < |init| :: init[i] == attrs[i];
      }
    }
  }

  /** A job block is accepted exactly when each attribute is a valid `command` or a valid
      `commands` and the two are not both present. */
  lemma JobSucceedsIff(attrs: seq<Attr>)
    ensures JobErrors(attrs) == [] <==>
              (forall i | 0 <= i < |attrs| :: AcceptedJobAttr(attrs[i]))
              && !(FoundCommand(attrs) && FoundCommands(attrs))
  {
    JobAttrErrorsEmpty(attrs);
  }

  /** The job's command is set exactly when a valid `command` attribute is present, and
      is then one of those attributes. */
  lemma {:induction false} JobOfCommand(attrs: seq<Attr>)
    ensures JobOf(attrs).command.Some? <==> FoundCommand(attrs)
    ensures JobOf(attrs).command.Some? ==>
              JobOf(attrs).command.value in attrs && JobOf(attrs).command.value.name == "command"
              && IsStringList(JobOf(attrs).command.value.value)
  {
    if |attrs| > 0 {
      var init := attrs[..|attrs| - 1];
      JobOfCommand(init);
      if FoundCommand(init) {
        var i :| 0 <= i < |init| && init[i].name == "command" && IsStringList(init[i].value);
        assert attrs[i] == init[i];
      }
      if FoundCommand(attrs) {
        var i :| 0 <= i < |attrs| && attrs[i].name == "command" && IsStringList(attrs[i].value);
        if i < |init| {
          assert init[i] == attrs[i];
        }
      }
      if JobOf(init).command.Some? {
        assert JobOf(init).command.value in attrs;
      }
    }
  }

  /** The job's commands are those of a valid `commands` attribute when there is one, and
      empty otherwise. */
  lemma {:induction false} JobOfCommands(attrs: seq<Attr>)
    ensures !FoundCommands(attrs) ==> JobOf(attrs).commands == []
    ensures FoundCommands(attrs) ==>
              exists i | 0 <= i < |attrs| :: attrs[i].name == "commands" && IsCommandList(attrs[i].value)
                                             && JobOf(attrs).commands == CommandsOf(attrs[i].value)
  {
    if |attrs| > 0 {
      var init := attrs[..|attrs| - 1];
      var last := attrs[|attrs| - 1];
      JobOfCommands(init);
      if FoundCommands(init) {
        var i :| 0 <= i < |init| && init[i].name == "commands" && IsCommandList(init[i].value)
                 && JobOf(init).commands == CommandsOf(init[i].value);
        assert attrs[i] == init[i];
        assert FoundCommands(attrs);
      }
    }
  }

  // ---- whole scripts ----

  lemma {:induction false} ScriptAttrErrorsEmpty(attrs: seq<Attr>)
    ensures ScriptAttrErrors(attrs) == [] <==>
              forall i | 0 <= i < |attrs| :: attrs[i].name == "description" && ValidateDescription(attrs[i]).Some?
  {
    if |attrs| > 0 {
      var init := attrs[..|attrs| - 1];
      ScriptAttrErrorsEmpty(init);
      if forall i | 0 <= i < |attrs| :: attrs[i].name == "description" && ValidateDescription(attrs[i]).Some? {
        assert forall i | 0 <= i < |init| :: init[i] == attrs[i];
      }
    }
  }

  /** A nested block a script accepts without error. */
  predicate AcceptedJobBlock(b: Block) {
    b.typ == "job" && JobErrors(b.attrs) == []
  }

  lemma NestedBlockErrorEmpty(b: Block)
    ensures NestedBlockError(b) == [] <==> AcceptedJobBlock(b)
  {
  }

  lemma {:induction false} AcceptedBlocksHaveNoErrors(blocks: seq<Block>)
    requires forall i | 0 <= i < |blocks| :: AcceptedJobBlock(blocks[i])
    ensures NestedBlockErrors(blocks) == []
  {
    if |blocks| > 0 {
      var init := blocks[..|blocks| - 1];
      forall i | 0 <= i < |init|
        ensures AcceptedJobBlock(init[i])
      {
        assert init[i] == blocks[i];
      }
      AcceptedBlocksHaveNoErrors(init);
      NestedBlockErrorEmpty(blocks[|blocks| - 1]);
    }
  }

  lemma {:induction false} NoErrorsMeansAccepted(blocks: seq<Block>)
    requires NestedBlockErrors(blocks) == []
    ensures forall i | 0 <= i < |blocks| :: AcceptedJobBlock(blocks[i])
  {
    if |blocks| > 0 {
      var init := blocks[..|blocks| - 1];
      var last := blocks[|blocks| - 1];
      assert NestedBlockErrors(blocks) == NestedBlockErrors(init) + NestedBlockError(last);
      assert |NestedBlockErrors(init)| + |NestedBlockError(last)| == 0;
      NoErrorsMeansAccepted(init);
      NestedBlockErrorEmpty(last);
      assert AcceptedJobBlock(last);
      forall i | 0 <= i < |blocks|
        ensures AcceptedJobBlock(blocks[i])
      {
        if i < |init| {
          assert blocks[i] == init[i];
        } else {
          assert blocks[i] == last;
        }
      }
    }
  }

  lemma NestedBlockErrorsEmpty(blocks: seq<Block>)
    ensures NestedBlockErrors(blocks) == [] <==> forall i | 0 <= i < |blocks| :: AcceptedJobBlock(blocks[i])
  {
    if NestedBlockErrors(blocks) == [] {
      NoErrorsMeansAccepted(blocks);
    }
    if forall i | 0 <= i < |blocks| :: AcceptedJobBlock(blocks[i]) {
      AcceptedBlocksHaveNoErrors(blocks);
    }
  }

  /** A script block is accepted exactly when it has two labels, the first non-empty, at
      least one attribute, all of them valid descriptions, and at least one nested block,
      all of them accepted jobs. */
  lemma ScriptSucceedsIff(b: Block)
    ensures ScriptErrors(b) == [] <==>
              && |b.labels| == 2 && b.labels[0] != ""
              && |b.attrs| > 0
              && (forall i | 0 <= i < |b.attrs| ::
                    b.attrs[i].name == "description" && ValidateDescription(b.attrs[i]).Some?)
              && |b.blocks| > 0
              && (forall i | 0 <= i < |b.blocks| :: AcceptedJobBlock(b.blocks[i]))
  {
    ScriptAttrErrorsEmpty(b.attrs);
    NestedBlockErrorsEmpty(b.blocks);
  }

  /** One job per `job` block, in source order. */
  lemma {:induction false} JobsOfCount(blocks: seq<Block>)
    ensures |JobsOf(blocks)| == CountIf(blocks, IsJobBlock)
  {
    if |blocks| > 0 {
      JobsOfCount(blocks[..|blocks| - 1]);
    }
  }

  lemma {:induction false} JobsOfAllJobs(blocks: seq<Block>)
    requires forall i | 0 <= i < |blocks| :: blocks[i].typ == "job"
    ensures |JobsOf(blocks)| == |blocks|
    ensures forall i | 0 <= i < |blocks| :: JobsOf(blocks)[i] == JobOf(blocks[i].attrs)
  {
    if |blocks| > 0 {
      var init := blocks[..|blocks| - 1];
      assert forall i | 0 <= i < |init| :: init[i] == blocks[i];
      JobsOfAllJobs(init);
    }
  }

  /** An accepted script keeps the block's labels and has one job per nested block, each
      built from that block's attributes, in source order. */
  lemma AcceptedScriptJobs(b: Block)
    requires ScriptErrors(b) == []
    ensures |JobsOf(b.blocks)| == |b.blocks| > 0
    ensures forall i | 0 <= i < |b.blocks| :: JobsOf(b.blocks)[i] == JobOf(b.blocks[i].attrs)
  {
    ScriptSucceedsIff(b);
    JobsOfAllJobs(b.blocks);
  }

  // ---- the description finding ----

  /** As written, a numeric description reaches the string conversion and panics. */
  lemma NumericDescriptionPanics()
    ensures DescriptionAsWritten(Attr("description", VNum(1))).DescPanics?
    ensures ValidateDescription(Attr("description", VNum(1))) == None
  {
  }

  /** Wherever the source does not panic, the corrected check agrees with it. */
  lemma CorrectedDescriptionAgrees(a: Attr)
    requires !DescriptionAsWritten(a).DescPanics?
    ensures ValidateDescription(a).Some? <==> DescriptionAsWritten(a).DescAccepted?
    ensures ValidateDescription(a).Some? ==> ValidateDescription(a).value == DescriptionAsWritten(a).attr
  {
  }

  // ---- the commands finding ----

  /** As written, a string `commands` value reaches the element walk and panics. */
  lemma StringCommandsPanics()
    ensures CommandsAsWritten(Attr("commands", VStr("ls"))).CmdsPanics?
    ensures !IsCommandList(VStr("ls"))
    ensures CommandsAsWritten(Attr("commands", VEvalErr)).CmdsPanics?
  {
  }

  /** Wherever the source does not panic, the corrected check accepts the same values and
      gives the same commands. */
  lemma CorrectedCommandsAgrees(a: Attr)
    requires !CommandsAsWritten(a).CmdsPanics?
    ensures IsCommandList(a.value) <==> CommandsAsWritten(a).CmdsAccepted?
    ensures IsCommandList(a.value) ==> CommandsAsWritten(a).cmds == CommandsOf(a.value)
  {
  }

  /** Callers tell the errors apart by their text, so no two kinds share one. */
  lemma MessagesDistinct(j: ErrKind, k: ErrKind)
    ensures Message(j) == Message(k) <==> j == k
  {
    if Message(j) == Message(k) {
      assert KindText(j) == Message(j)[|SchemaPrefix|..] == KindText(k);
    }
  }
}
