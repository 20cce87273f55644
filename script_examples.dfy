/** The script blocks of the parser's own test table, with the errors and the scripts
    they are expected to give. */
module ScriptExamples {

  import opened Wrappers
  import opened ScriptSchema

  const Labels: seq<string> := ["group1", "script1"]
  const Desc: Attr := Attr("description", VStr("some description"))

  function StrTuple(ss: seq<string>): (v: Value)
    ensures v.VTuple? && |v.elems| == |ss| && IsStringList(v) && Strings(v) == ss
  {
    VTuple(seq(|ss|, i requires 0 <= i < |ss| => VStr(ss[i])))
  }

  function JobBlock(attrs: seq<Attr>): Block {
    Block("job", [], attrs, [])
  }

  function ScriptBlock(labels: seq<string>, attrs: seq<Attr>, blocks: seq<Block>): Block {
    Block("script", labels, attrs, blocks)
  }

  lemma UnrecognizedBlocks()
    ensures ScriptErrors(ScriptBlock(Labels, [Attr("description", VStr("some desc"))],
                                     [Block("block1", [], [], []), Block("block2", [], [], [])]))
            == [UnknownBlock, UnknownBlock]
  {
    var blocks := [Block("block1", [], [], []), Block("block2", [], [], [])];
    assert blocks[..1][..0] == [] && blocks[..1] == [blocks[0]];
    assert [Attr("description", VStr("some desc"))][..0] == [];
    assert NestedBlockErrors(blocks[..1]) == [UnknownBlock];
    assert NestedBlockErrors(blocks) == [UnknownBlock, UnknownBlock];
    assert ScriptAttrErrors([Attr("description", VStr("some desc"))]) == [];
  }

  lemma NoDescription()
    ensures ScriptErrors(ScriptBlock(Labels, [], [])) == [NoAttrs, NoBlocks]
  {
  }

  lemma EmptyDescription()
    ensures ScriptErrors(ScriptBlock(Labels, [Attr("description", VStr(""))], [])) == [InvalidDesc, NoBlocks]
  {
    assert [Attr("description", VStr(""))][..0] == [];
    assert ScriptAttrErrors([Attr("description", VStr(""))]) == [InvalidDesc];
  }

  lemma DescriptionOnly()
    ensures ScriptErrors(ScriptBlock(Labels, [Desc], [])) == [NoBlocks]
  {
    assert [Desc][..0] == [];
    assert ScriptAttrErrors([Desc]) == [];
  }

  lemma UnknownScriptAttr()
    ensures ScriptErrors(ScriptBlock(Labels, [Desc, Attr("unknownattr", VStr("abc"))],
                                     [JobBlock([Attr("command", StrTuple(["ls"]))])]))
            == [UnknownAttr]
  {
    var cmd := Attr("command", StrTuple(["ls"]));
    CommandJob(cmd);
    var attrs := [Desc, Attr("unknownattr", VStr("abc"))];
    assert attrs[..1] == [Desc] && [Desc][..0] == [];
    assert ScriptAttrErrors(attrs[..1]) == [];
    assert ScriptAttrErrors(attrs) == [UnknownAttr];
    assert [JobBlock([cmd])][..0] == [];
    assert NestedBlockErrors([JobBlock([cmd])]) == [];
  }

  /** A script with valid labels, one valid description and one error-free job block is
      accepted with that description and that one job. */
  lemma OneJobScript(labels: seq<string>, desc: Attr, job: Block)
    requires |labels| == 2 && labels[0] != ""
    requires desc.name == "description" && ValidateDescription(desc).Some?
    requires job.typ == "job" && JobErrors(job.attrs) == []
    ensures var b := ScriptBlock(labels, [desc], [job]);
            ScriptErrors(b) == [] && DescriptionOf(b.attrs) == Some(desc) && JobsOf(b.blocks) == [JobOf(job.attrs)]
  {
    assert [desc][..0] == [] && [job][..0] == [];
    assert ScriptAttrErrors([desc]) == [];
    assert NestedBlockErrors([job]) == [];
  }

  lemma JobCommand()
    ensures var b := ScriptBlock(Labels, [Desc], [JobBlock([Attr("command", StrTuple(["echo", "hello"]))])]);
            ScriptErrors(b) == []
            && DescriptionOf(b.attrs) == Some(Desc)
            && JobsOf(b.blocks) == [Job(Some(Attr("command", StrTuple(["echo", "hello"]))), [])]
  {
    CommandJob(Attr("command", StrTuple(["echo", "hello"])));
    OneJobScript(Labels, Desc, JobBlock([Attr("command", StrTuple(["echo", "hello"]))]));
  }

  lemma JobCommands()
    ensures var b := ScriptBlock(Labels, [Desc], [JobBlock([
                       Attr("commands", VTuple([StrTuple(["echo", "hello"]), StrTuple(["echo", "bye"])]))])]);
            ScriptErrors(b) == []
            && DescriptionOf(b.attrs) == Some(Desc)
            && JobsOf(b.blocks) == [Job(None, [["echo", "hello"], ["echo", "bye"]])]
  {
    var cmds := Attr("commands", VTuple([StrTuple(["echo", "hello"]), StrTuple(["echo", "bye"])]));
    CommandsJob(cmds);
    assert CommandsOf(cmds.value) == [["echo", "hello"], ["echo", "bye"]];
    OneJobScript(Labels, Desc, JobBlock([cmds]));
  }

  lemma CommandAndCommands()
    ensures ScriptErrors(ScriptBlock(Labels, [Desc], [JobBlock([
              Attr("command", StrTuple(["ls", "-l"])),
              Attr("commands", VTuple([StrTuple(["echo", "hello"]), StrTuple(["echo", "bye"])]))])]))
            == [CmdConflict]
  {
    var cmd := Attr("command", StrTuple(["ls", "-l"]));
    var cmds := Attr("commands", VTuple([StrTuple(["echo", "hello"]), StrTuple(["echo", "bye"])]));
    var attrs := [cmd, cmds];
    assert [Desc][..0] == [] && attrs[..1] == [cmd] && [cmd][..0] == [];
    assert IsCommandList(cmds.value);
    assert attrs[0].name == "command" && IsStringList(attrs[0].value);
    assert attrs[1].name == "commands" && IsCommandList(attrs[1].value);
    assert [JobBlock(attrs)][..0] == [];
    assert ScriptAttrErrors([Desc]) == [];
    assert JobAttrErrors(attrs[..1]) == [];
    assert JobAttrErrors(attrs) == [];
    assert JobErrors(attrs) == [CmdConflict];
    assert NestedBlockErrors([JobBlock(attrs)]) == [CmdConflict];
  }

  lemma UnknownJobAttr()
    ensures ScriptErrors(ScriptBlock(Labels, [Desc], [JobBlock([
              Attr("command", StrTuple(["ls", "-l"])), Attr("unknownattr", VStr("abc"))])]))
            == [UnknownAttr]
  {
    var cmd := Attr("command", StrTuple(["ls", "-l"]));
    var attrs := [cmd, Attr("unknownattr", VStr("abc"))];
    assert [Desc][..0] == [] && attrs[..1] == [cmd] && [cmd][..0] == [];
    assert [JobBlock(attrs)][..0] == [];
    assert ScriptAttrErrors([Desc]) == [];
    assert JobAttrErrors(attrs[..1]) == [];
    assert JobAttrErrors(attrs) == [UnknownAttr];
    assert !FoundCommands(attrs);
    assert JobErrors(attrs) == [UnknownAttr];
    assert NestedBlockErrors([JobBlock(attrs)]) == [UnknownAttr];
  }

  lemma InvalidCommand()
    ensures ScriptErrors(ScriptBlock(Labels, [Desc], [JobBlock([
              Attr("command", VTuple([VStr("ls"), VNum(1), VStr("-l")]))])]))
            == [InvalidCmd]
  {
    var cmd := Attr("command", VTuple([VStr("ls"), VNum(1), VStr("-l")]));
    assert !cmd.value.elems[1].VStr?;
    assert [Desc][..0] == [] && [cmd][..0] == [] && [JobBlock([cmd])][..0] == [];
    assert ScriptAttrErrors([Desc]) == [];
    assert JobAttrErrors([cmd]) == [InvalidCmd];
    assert !FoundCommand([cmd]);
    assert JobErrors([cmd]) == [InvalidCmd];
    assert NestedBlockErrors([JobBlock([cmd])]) == [InvalidCmd];
  }

  lemma InvalidCommands()
    ensures ScriptErrors(ScriptBlock(Labels, [Desc], [JobBlock([
              Attr("commands", VTuple([StrTuple(["ls"]), VTuple([VStr("ls"), VNum(123)])]))])]))
            == [InvalidCmds]
  {
    var cmds := Attr("commands", VTuple([StrTuple(["ls"]), VTuple([VStr("ls"), VNum(123)])]));
    assert !cmds.value.elems[1].elems[1].VStr?;
    assert !IsStringList(cmds.value.elems[1]);
    assert [Desc][..0] == [] && [cmds][..0] == [] && [JobBlock([cmds])][..0] == [];
    assert ScriptAttrErrors([Desc]) == [];
    assert JobAttrErrors([cmds]) == [InvalidCmds];
    assert !FoundCommand([cmds]);
    assert JobErrors([cmds]) == [InvalidCmds];
    assert NestedBlockErrors([JobBlock([cmds])]) == [InvalidCmds];
  }

  /** A job block whose one attribute is a valid `command`. */
  lemma CommandJob(c: Attr)
    requires c.name == "command" && IsStringList(c.value)
    ensures JobErrors([c]) == [] && JobOf([c]) == Job(Some(c), [])
  {
    assert [c][..0] == [];
    assert [c][0].name == "command" && IsStringList([c][0].value);
    assert JobAttrErrors([c]) == [];
    assert !FoundCommands([c]);
  }

  /** A job block whose one attribute is a valid `commands`. */
  lemma CommandsJob(c: Attr)
    requires c.name == "commands" && IsCommandList(c.value)
    ensures JobErrors([c]) == [] && JobOf([c]) == Job(None, CommandsOf(c.value))
  {
    assert [c][..0] == [];
    assert JobAttrErrors([c]) == [];
    assert !FoundCommand([c]);
  }

  /** Three `job` blocks without errors give no error and three jobs, in order. */
  lemma ThreeAcceptedJobs(b1: Block, b2: Block, b3: Block)
    requires b1.typ == "job" && b2.typ == "job" && b3.typ == "job"
    requires JobErrors(b1.attrs) == [] && JobErrors(b2.attrs) == [] && JobErrors(b3.attrs) == []
    ensures NestedBlockErrors([b1, b2, b3]) == []
    ensures JobsOf([b1, b2, b3]) == [JobOf(b1.attrs), JobOf(b2.attrs), JobOf(b3.attrs)]
  {
    var blocks := [b1, b2, b3];
    assert blocks[..2] == [b1, b2] && blocks[..2][..1] == [b1] && blocks[..2][..1][..0] == [];
    assert NestedBlockErrors(blocks[..2][..1]) == [];
    assert NestedBlockErrors(blocks[..2]) == [];
    assert JobsOf(blocks[..2][..1]) == [JobOf(b1.attrs)];
    assert JobsOf(blocks[..2]) == [JobOf(b1.attrs), JobOf(b2.attrs)];
  }

  lemma MultipleJobs()
    ensures var b := ScriptBlock(Labels, [Desc], [
                       JobBlock([Attr("commands", VTuple([StrTuple(["echo", "hello"]), StrTuple(["echo", "bye"])]))]),
                       JobBlock([Attr("commands", VTuple([StrTuple(["ls", "-l"]), StrTuple(["date"])]))]),
                       JobBlock([Attr("command", StrTuple(["stat", "."]))])]);
            ScriptErrors(b) == []
            && JobsOf(b.blocks) == [Job(None, [["echo", "hello"], ["echo", "bye"]]),
                                    Job(None, [["ls", "-l"], ["date"]]),
                                    Job(Some(Attr("command", StrTuple(["stat", "."]))), [])]
  {
    var c1 := Attr("commands", VTuple([StrTuple(["echo", "hello"]), StrTuple(["echo", "bye"])]));
    var c2 := Attr("commands", VTuple([StrTuple(["ls", "-l"]), StrTuple(["date"])]));
    var c3 := Attr("command", StrTuple(["stat", "."]));
    CommandsJob(c1);
    CommandsJob(c2);
    CommandJob(c3);
    assert CommandsOf(c1.value) == [["echo", "hello"], ["echo", "bye"]];
    assert CommandsOf(c2.value) == [["ls", "-l"], ["date"]];
    assert [Desc][..0] == [];
    assert ScriptAttrErrors([Desc]) == [];
    ThreeAcceptedJobs(JobBlock([c1]), JobBlock([c2]), JobBlock([c3]));
  }

  /** Two scripts in one file are validated independently, each with its own labels,
      description and job. */
  lemma MultipleScripts()
    ensures var d1 := Attr("description", VStr("script1 desc"));
            var c1 := Attr("commands", VTuple([StrTuple(["echo", "hello"]), StrTuple(["echo", "bye"])]));
            var b1 := ScriptBlock(["group1", "script1"], [d1], [JobBlock([c1])]);
            ScriptErrors(b1) == [] && DescriptionOf(b1.attrs) == Some(d1)
            && JobsOf(b1.blocks) == [Job(None, [["echo", "hello"], ["echo", "bye"]])]
    ensures var d2 := Attr("description", VStr("script2 desc"));
            var c2 := Attr("commands", VTuple([StrTuple(["cat", "main.tf"])]));
            var b2 := ScriptBlock(["group1", "script2"], [d2], [JobBlock([c2])]);
            ScriptErrors(b2) == [] && DescriptionOf(b2.attrs) == Some(d2)
            && JobsOf(b2.blocks) == [Job(None, [["cat", "main.tf"]])]
  {
    var c1 := Attr("commands", VTuple([StrTuple(["echo", "hello"]), StrTuple(["echo", "bye"])]));
    CommandsJob(c1);
    assert CommandsOf(c1.value) == [["echo", "hello"], ["echo", "bye"]];
    OneJobScript(["group1", "script1"], Attr("description", VStr("script1 desc")), JobBlock([c1]));
    var c2 := Attr("commands", VTuple([StrTuple(["cat", "main.tf"])]));
    CommandsJob(c2);
    assert CommandsOf(c2.value) == [["cat", "main.tf"]];
    OneJobScript(["group1", "script2"], Attr("description", VStr("script2 desc")), JobBlock([c2]));
  }
}
