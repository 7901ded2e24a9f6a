/** The boundary to the external `dolt` executable. The tool itself is an oracle that
    answers each invocation from the invocations made before it; the shell records every
    argument vector it is asked to run, and keeps the files it creates: redirected output
    and the temporary import files. */
module Process {
  import opened Base
  import opened Text

  /** One invocation: the argument vector after the executable's name, and the directory. */
  datatype Call = Call(args: seq<string>, cwd: string)

  datatype Exit = Exit(code: int, stdout: string, stderr: string)

  /** The command line recorded in a `DoltException`: the arguments joined by single
      spaces, with every run of whitespace collapsed to one space. */
  function CommandLine(args: seq<string>): string {
    Join(" ", SplitWs(Join(" ", args)))
  }

  /** The logged command line holds the same words as the arguments joined by spaces,
      and it is already in normal form: its words joined by single spaces. */
  lemma CommandLineNormalised(args: seq<string>)
    ensures var r := CommandLine(args);
      SplitWs(r) == SplitWs(Join(" ", args)) && r == Join(" ", SplitWs(r))
  {
    var ws := SplitWs(Join(" ", args));
    assert Tokens(ws) by {
      forall i | 0 <= i < |ws| ensures ws[i] != "" && NoSpace(ws[i]) {
        assert ws[i] in ws;
      }
    }
    SplitWsJoin(ws);
  }

  /** What `_execute` returns for `args` run in `cwd` after the calls `h`: the path of the
      redirect file, or stdout, or the `DoltException` of a non-zero exit. */
  function Answer(tool: (seq<Call>, Call) -> Exit, h: seq<Call>, args: seq<string>, cwd: string,
                  outfile: Option<string>): (r: Result<string>)
    ensures r.Success? <==> tool(h, Call(args, cwd)).code == 0
    ensures r.Success? && Given(outfile) ==> r.value == outfile.value
    ensures r.Success? && !Given(outfile) ==> r.value == tool(h, Call(args, cwd)).stdout
    ensures r.Failure? ==> var e := tool(h, Call(args, cwd));
      r.error == DoltException(CommandLine(args), if Given(outfile) then "" else e.stdout, e.stderr, e.code)
  {
    var e := tool(h, Call(args, cwd));
    if e.code != 0 then Failure(DoltException(CommandLine(args), if Given(outfile) then "" else e.stdout, e.stderr, e.code))
    else Success(if Given(outfile) then outfile.value else e.stdout)
  }

  /** The files after running `args`: the redirect file, when there is one, holds stdout. */
  function Redirected(files: map<string, string>, tool: (seq<Call>, Call) -> Exit, h: seq<Call>,
                      args: seq<string>, cwd: string, outfile: Option<string>): map<string, string> {
    if Given(outfile) then files[outfile.value := tool(h, Call(args, cwd)).stdout] else files
  }

  class Shell {
    /** The tool's answer to a call, given every call made before it. */
    const tool: (seq<Call>, Call) -> Exit
    /** Every call made, in order. */
    var issued: seq<Call>
    /** The files this layer can observe, by path. */
    var files: map<string, string>

    constructor (tool: (seq<Call>, Call) -> Exit, files: map<string, string>)
      ensures this.tool == tool && issued == [] && this.files == files
    {
      this.tool := tool;
      issued := [];
      this.files := files;
    }

    /** What the tool answered to the `i`-th call of the log `h`. */
    ghost function Reply(h: seq<Call>, i: nat): Exit
      requires i < |h|
    {
      tool(h[..i], h[i])
    }

    /** `_execute`: run the tool once in `cwd`; with a (non-empty) `outfile` its stdout goes
        to that file and the path is returned, otherwise stdout is returned. A non-zero exit
        raises `DoltException` carrying the command line, the captured output and the code. */
    method Run(args: seq<string>, cwd: string, outfile: Option<string>) returns (r: Result<string>)
      modifies this
      ensures issued == old(issued) + [Call(args, cwd)]
      ensures Reply(issued, |old(issued)|) == tool(old(issued), Call(args, cwd))
      ensures files == Redirected(old(files), tool, old(issued), args, cwd, outfile)
      ensures r == Answer(tool, old(issued), args, cwd, outfile)
    {
      var call := Call(args, cwd);
      var e := tool(issued, call);
      assert (issued + [call])[..|issued|] == issued;
      issued := issued + [call];
      var out := e.stdout;
      if Given(outfile) {
        files := files[outfile.value := e.stdout];
        out := "";
      }
      if e.code != 0 {
        r := Failure(DoltException(CommandLine(args), out, e.stderr, e.code));
      } else if Given(outfile) {
        r := Success(outfile.value);
      } else {
        r := Success(out);
      }
    }

    /** Create or overwrite a file. */
    method Write(path: string, content: string)
      modifies this
      ensures files == old(files)[path := content] && issued == old(issued)
    {
      files := files[path := content];
    }

    /** `if os.path.exists(path): os.remove(path)`. */
    method RemoveIfExists(path: string)
      modifies this
      ensures files == old(files) - {path} && issued == old(issued)
    {
      if path in files {
        files := files - {path};
      }
    }
  }
}
