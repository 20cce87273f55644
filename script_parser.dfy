/** The validator of `script` blocks: it walks an already parsed block, collects every
    error it finds instead of stopping at the first, and builds the script when there is
    none. Each method is proved against the functions of ScriptSchema. */
module ScriptParser {

  import opened Wrappers
  import opened ScriptSchema

  /** `validateCommands`: a tuple of string lists becomes the list of commands, every
      inner list kept, in order; anything else is rejected. */
  method ValidateCommands(a: Attr) returns (r: Option<seq<seq<string>>>)
    ensures r.Some? <==> IsCommandList(a.value)
    ensures r.Some? ==> |r.value| == |a.value.elems|
                        && forall i | 0 <= i < |r.value| :: r.value[i] == Strings(a.value.elems[i])
  {
    var val := a.value;
    var failed := val.VEvalErr?;            // the evaluation reported errors
    if !val.VTuple? {
      failed := true;                       // "wrong type"
    }
    var valSlice := if val.VList? || val.VTuple? then val.elems else [];
    var cmds: seq<seq<string>> := [];
    for i := 0 to |valSlice|
      invariant |cmds| == i
      invariant forall j | 0 <= j < i :: IsStringList(valSlice[j]) ==> cmds[j] == Strings(valSlice[j])
      invariant failed <==> !val.VTuple? || exists j | 0 <= j < i :: !IsStringList(valSlice[j])
    {
      var parsed: seq<string> := [];
      if IsStringList(valSlice[i]) {
        parsed := Strings(valSlice[i]);
      } else {
        failed := true;
      }
      cmds := cmds + [parsed];
    }
    if failed {
      return None;
    }
    return Some(cmds);
  }

  /** `validateScriptJobBlock`: checks each attribute of a `job` block and that `command`
      and `commands` are not both set; the job when no error was found, else the errors. */
  method ValidateScriptJobBlock(block: Block) returns (r: Result<Job, seq<ErrKind>>)
    ensures r.Ok? <==> JobErrors(block.attrs) == []
    ensures r.Ok? ==> r.value == JobOf(block.attrs)
    ensures r.Err? ==> r.error == JobErrors(block.attrs)
  {
    var errs: seq<ErrKind> := [];
    var foundCmd, foundCmds := false, false;
    var parsed := Job(None, []);
    var attrs := block.attrs;
    for i := 0 to |attrs|
      invariant errs == JobAttrErrors(attrs[..i])
      invariant parsed == JobOf(attrs[..i])
      invariant foundCmd == FoundCommand(attrs[..i])
      invariant foundCmds == FoundCommands(attrs[..i])
    {
      var attr := attrs[i];
      JobAttrsStep(attrs, i);
      if attr.name == "command" {
        var cmd := ValidateCommand(attr);
        if cmd.None? {
          errs := errs + [InvalidCmd];
          continue;
        }
        parsed := parsed.(command := cmd);
        foundCmd := true;
      } else if attr.name == "commands" {
        var cmds := ValidateCommands(attr);
        if cmds.None? {
          errs := errs + [InvalidCmds];
          continue;
        }
        parsed := parsed.(commands := cmds.value);
        foundCmds := true;
      } else {
        errs := errs + [UnknownAttr];
      }
    }
    assert attrs[..|attrs|] == attrs;
    // command and commands are mutually exclusive
    if foundCmd && foundCmds {
      errs := errs + [CmdConflict];
    }
    if errs != [] {
      return Err(errs);
    }
    return Ok(parsed);
  }

  /** `parseScriptBlock`: checks the labels, the attributes and the nested blocks of a
      `script` block, collecting all errors; the script when there is none. */
  method ParseScriptBlock(block: Block) returns (r: Result<Script, seq<ErrKind>>)
    ensures r.Ok? <==> ScriptErrors(block) == []
    ensures r.Err? ==> r.error == ScriptErrors(block)
    ensures r.Ok? ==> r.value == Script(block.labels, DescriptionOf(block.attrs), JobsOf(block.blocks))
  {
    var errs: seq<ErrKind> := [];
    if |block.labels| != 2 {
      errs := errs + [TwoLabels];
    } else if block.labels[0] == "" {
      errs := errs + [EmptyLabel];
    }
    assert errs == LabelErrors(block.labels);

    var parsed := Script(block.labels, None, []);

    if |block.attrs| == 0 {
      errs := errs + [NoAttrs];
    }
    ghost var head := errs;

    var attrErrs, description := CheckScriptAttributes(block.attrs);
    errs := errs + attrErrs;
    parsed := parsed.(description := description);

    if |block.blocks| < 1 {
      errs := errs + [NoBlocks];
    }
    ghost var middle := errs;

    var blockErrs, jobs := CheckNestedBlocks(block.blocks);
    errs := errs + blockErrs;
    parsed := parsed.(jobs := jobs);
    ScriptErrorsSplit(block, head, middle, errs);

    if errs != [] {
      return Err(errs);
    }
    return Ok(parsed);
  }

  /** The loop of `parseScriptBlock` over the attributes of a script block: the errors it
      appends and the description it sets. */
  method CheckScriptAttributes(attrs: seq<Attr>) returns (errs: seq<ErrKind>, description: Option<Attr>)
    ensures errs == ScriptAttrErrors(attrs)
    ensures description == DescriptionOf(attrs)
  {
    errs, description := [], None;
    for i := 0 to |attrs|
      invariant errs == ScriptAttrErrors(attrs[..i])
      invariant description == DescriptionOf(attrs[..i])
    {
      var attr := attrs[i];
      assert attrs[..i + 1][..i] == attrs[..i];
      if attr.name == "description" {
        var desc := ValidateDescription(attr);
        if desc.None? {
          errs := errs + [InvalidDesc];
          continue;
        }
        description := desc;
      } else {
        errs := errs + [UnknownAttr];
      }
    }
    assert attrs[..|attrs|] == attrs;
  }

  /** The loop of `parseScriptBlock` over the nested blocks of a script block: the errors
      it appends and, when there are none, the jobs it collects. */
  method CheckNestedBlocks(blocks: seq<Block>) returns (errs: seq<ErrKind>, jobs: seq<Job>)
    ensures errs == NestedBlockErrors(blocks)
    ensures errs == [] ==> jobs == JobsOf(blocks)
  {
    errs, jobs := [], [];
    for i := 0 to |blocks|
      invariant errs == NestedBlockErrors(blocks[..i])
      invariant errs == [] ==> jobs == JobsOf(blocks[..i])
    {
      var nested := blocks[i];
      assert blocks[..i + 1][..i] == blocks[..i];
      if nested.typ == "job" {
        var parsedJob := ValidateScriptJobBlock(nested);
        match parsedJob
        case Ok(job) =>
          jobs := jobs + [job];
        case Err(jobErrs) =>
          errs := errs + jobErrs;
      } else {
        errs := errs + [UnknownBlock];
      }
    }
    assert blocks[..|blocks|] == blocks;
  }

  /** The error list of a script block, put together from the parts `parseScriptBlock`
      appends one after the other. */
  lemma ScriptErrorsSplit(block: Block, head: seq<ErrKind>, middle: seq<ErrKind>, errs: seq<ErrKind>)
    requires head == LabelErrors(block.labels) + (if |block.attrs| == 0 then [NoAttrs] else [])
    requires middle == head + ScriptAttrErrors(block.attrs) + (if |block.blocks| == 0 then [NoBlocks] else [])
    requires errs == middle + NestedBlockErrors(block.blocks)
    ensures errs == ScriptErrors(block)
  {
  }

  /** How the job-block functions grow by one attribute. */
  lemma JobAttrsStep(attrs: seq<Attr>, i: nat)
    requires i < |attrs|
    ensures JobAttrErrors(attrs[..i + 1]) == JobAttrErrors(attrs[..i]) + JobAttrError(attrs[i])
    ensures JobOf(attrs[..i + 1]) == JobOf(attrs[..i]).(
              command := if attrs[i].name == "command" && IsStringList(attrs[i].value) then Some(attrs[i])
                         else JobOf(attrs[..i]).command,
              commands := if attrs[i].name != "command" && attrs[i].name == "commands" && IsCommandList(attrs[i].value)
                          then CommandsOf(attrs[i].value) else JobOf(attrs[..i]).commands)
    ensures FoundCommand(attrs[..i + 1])
            == (FoundCommand(attrs[..i]) || (attrs[i].name == "command" && IsStringList(attrs[i].value)))
    ensures FoundCommands(attrs[..i + 1])
            == (FoundCommands(attrs[..i]) || (attrs[i].name == "commands" && IsCommandList(attrs[i].value)))
  {
    assert attrs[..i + 1][..i] == attrs[..i];
    FoundCommandStep(attrs, i);
    FoundCommandsStep(attrs, i);
  }

  lemma FoundCommandStep(attrs: seq<Attr>, i: nat)
    requires i < |attrs|
    ensures FoundCommand(attrs[..i + 1])
            == (FoundCommand(attrs[..i]) || (attrs[i].name == "command" && IsStringList(attrs[i].value)))
  {
    var prefix := attrs[..i + 1];
    if FoundCommand(prefix) {
      var k :| 0 <= k < |prefix| && prefix[k].name == "command" && IsStringList(prefix[k].value);
      if k < i {
        assert attrs[..i][k] == prefix[k];
      }
    }
    if FoundCommand(attrs[..i]) {
      var k :| 0 <= k < i && attrs[..i][k].name == "command" && IsStringList(attrs[..i][k].value);
      assert prefix[k] == attrs[..i][k];
    }
    assert prefix[i] == attrs[i];
  }

  lemma FoundCommandsStep(attrs: seq<Attr>, i: nat)
    requires i < |attrs|
    ensures FoundCommands(attrs[..i + 1])
            == (FoundCommands(attrs[..i]) || (attrs[i].name == "commands" && IsCommandList(attrs[i].value)))
  {
    var prefix := attrs[..i + 1];
    if FoundCommands(prefix) {
      var k :| 0 <= k < |prefix| && prefix[k].name == "commands" && IsCommandList(prefix[k].value);
      if k < i {
        assert attrs[..i][k] == prefix[k];
      }
    }
    if FoundCommands(attrs[..i]) {
      var k :| 0 <= k < i && attrs[..i][k].name == "commands" && IsCommandList(attrs[..i][k].value);
      assert prefix[k] == attrs[..i][k];
    }
    assert prefix[i] == attrs[i];
  }
}
