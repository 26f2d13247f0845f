/** The local stand-in for the remote compile endpoint: it routes the POSTed form fields
    into source text, externs text and compiler flags, refuses a request without source or
    flags, builds the compiler's command line, drains the child's two output streams and
    shapes the JSON response. */
module LocalCompiler {
  import opened Php
  import opened Wire

  datatype Option<T> = None | Some(value: T)

  /** One POSTed form field, in the order the script's `foreach` visits them. */
  datatype Field = Field(key: string, value: string)

  /** What the compiler process does when started. `SpawnFailed` stands for `proc_open` not
      returning a process. Otherwise each stream is the sequence of values the script's
      successive `fgets` calls obtain from it before `feof` reports its end (a read that
      finds nothing ready yields ""). */
  datatype Child =
    | SpawnFailed
    | Exited(stdout: seq<string>, stderr: seq<string>)

  /** The collaborators outside the script, given as values: the directory that holds the
      compiler jar, the URL fetch (a failed fetch contributes ""), the shell-argument escaping,
      the path of the temporary externs file, and the child process as a function of its
      command line and its standard input. */
  datatype Host = Host(
    installDir: string,
    fetch: string -> string,
    escape: string -> string,
    externsPath: string,
    child: (string, string) -> Child)

  /** The map from form keys to the compiler's command-line flags. */
  const Flags: map<string, string> :=
    map["compilation_level" := "--compilation_level",
        "language" := "--language_in",
        "warning_level" := "--warning_level"]

  /** The command that runs the compiler jar that sits beside the script. */
  function Command(installDir: string): string
  {
    "java -jar " + installDir + "/compiler.jar"
  }

  // ---------------------------------------------------------------------------
  // Routing the form fields

  /** Two form keys feeding one text: one carries the text inline, the other names a URL
      whose content is fetched. */
  datatype TextKeys = TextKeys(inline: string, url: string)

  const SourceKeys := TextKeys("js_code", "code_url")
  const ExternsKeys := TextKeys("js_externs", "externs_url")

  predicate Names(keys: TextKeys, key: string)
  {
    key == keys.inline || key == keys.url
  }

  /** The keys the routing switch acts on; every other field is dropped. */
  predicate Routed(key: string)
  {
    Names(SourceKeys, key) || Names(ExternsKeys, key) || key in Flags
  }

  /** What one field appends to the text fed by `keys`. A URL is fetched only when it is
      not empty in PHP's sense. */
  function Piece(f: Field, keys: TextKeys, fetch: string -> string): string
  {
    if f.key == keys.inline then f.value
    else if f.key == keys.url && !EmptyString(f.value) then fetch(f.value)
    else ""
  }

  /** The text (`$data` or `$externs`) accumulated over `fields`. */
  function Text(fields: seq<Field>, keys: TextKeys, fetch: string -> string): string
  {
    if fields == [] then ""
    else Text(fields[..|fields| - 1], keys, fetch) + Piece(fields[|fields| - 1], keys, fetch)
  }

  /** The `$parameters` entry for a recognised flag field. */
  function FlagEntry(f: Field, escape: string -> string): string
    requires f.key in Flags
  {
    Flags[f.key] + " " + escape(f.value)
  }

  /** The `$parameters` list accumulated over `fields`. */
  function Parameters(fields: seq<Field>, escape: string -> string): seq<string>
  {
    if fields == [] then []
    else
      var last := fields[|fields| - 1];
      Parameters(fields[..|fields| - 1], escape) + (if last.key in Flags then [FlagEntry(last, escape)] else [])
  }

  /** The fields whose key is in the flag map, in POST order. */
  function FlagFields(fields: seq<Field>): (r: seq<Field>)
    ensures |r| <= |fields|
    ensures forall g :: g in r ==> g.key in Flags
  {
    if fields == [] then []
    else
      var last := fields[|fields| - 1];
      FlagFields(fields[..|fields| - 1]) + (if last.key in Flags then [last] else [])
  }

  /** What the routing loop has collected. */
  datatype Request = Request(data: string, externs: string, parameters: seq<string>)

  function Translate(fields: seq<Field>, fetch: string -> string, escape: string -> string): Request
  {
    Request(Text(fields, SourceKeys, fetch), Text(fields, ExternsKeys, fetch), Parameters(fields, escape))
  }

  /** The `foreach` over the POSTed fields and its `switch`. */
  method Collect(post: seq<Field>, fetch: string -> string, escape: string -> string)
    returns (data: string, externs: string, parameters: seq<string>)
    ensures Request(data, externs, parameters) == Translate(post, fetch, escape)
  {
    data, externs, parameters := "", "", [];
    var i := 0;
    while i < |post|
      invariant i <= |post|
      invariant data == Text(post[..i], SourceKeys, fetch)
      invariant externs == Text(post[..i], ExternsKeys, fetch)
      invariant parameters == Parameters(post[..i], escape)
    {
      var key, value := post[i].key, post[i].value;
      if key == "js_code" {
        data := data + value;
      } else if key == "code_url" {
        if !EmptyString(value) {
          data := data + fetch(value);
        }
      } else if key == "js_externs" {
        externs := externs + value;
      } else if key == "externs_url" {
        if !EmptyString(value) {
          externs := externs + fetch(value);
        }
      } else if key in Flags {
        parameters := parameters + [Flags[key] + " " + escape(value)];
      }
      assert post[..i + 1][..i] == post[..i];
      i := i + 1;
    }
    assert post[..i] == post;
  }

  /** Collecting two batches of fields one after the other gives the concatenated text. */
  lemma {:induction false} TextAppend(a: seq<Field>, b: seq<Field>, keys: TextKeys, fetch: string -> string)
    ensures Text(a + b, keys, fetch) == Text(a, keys, fetch) + Text(b, keys, fetch)
    decreases |b|
  {
    if b == [] {
      assert a + b == a;
    } else {
      var init := b[..|b| - 1];
      assert (a + b)[..|a + b| - 1] == a + init;
      assert (a + b)[|a + b| - 1] == b[|b| - 1];
      TextAppend(a, init, keys, fetch);
    }
  }

  /** Collecting two batches of fields one after the other gives the concatenated flag list. */
  lemma {:induction false} ParametersAppend(a: seq<Field>, b: seq<Field>, escape: string -> string)
    ensures Parameters(a + b, escape) == Parameters(a, escape) + Parameters(b, escape)
    decreases |b|
  {
    if b == [] {
      assert a + b == a;
    } else {
      var init := b[..|b| - 1];
      assert (a + b)[..|a + b| - 1] == a + init;
      assert (a + b)[|a + b| - 1] == b[|b| - 1];
      ParametersAppend(a, init, escape);
    }
  }

  /** A field's contribution lands in POST order: after everything collected before it and
      before everything collected after it. Inline text is appended as is; a URL contributes
      its fetched content, and only when it is not empty. */
  lemma FieldInPlace(a: seq<Field>, f: Field, b: seq<Field>, keys: TextKeys, fetch: string -> string)
    ensures Text(a + [f] + b, keys, fetch) == Text(a, keys, fetch) + Piece(f, keys, fetch) + Text(b, keys, fetch)
  {
    TextAppend(a + [f], b, keys, fetch);
    TextAppend(a, [f], keys, fetch);
    assert [f][..0] == [];
  }

  /** A field's flag entry, if any, lands in POST order in the flag list. */
  lemma ParametersInPlace(a: seq<Field>, f: Field, b: seq<Field>, escape: string -> string)
    ensures Parameters(a + [f] + b, escape)
         == Parameters(a, escape) + (if f.key in Flags then [FlagEntry(f, escape)] else []) + Parameters(b, escape)
  {
    ParametersAppend(a + [f], b, escape);
    ParametersAppend(a, [f], escape);
    assert [f][..0] == [];
  }

  /** A field that does not feed the text fed by `keys` leaves that text as it would be
      without the field. */
  lemma TextSkipsField(a: seq<Field>, f: Field, b: seq<Field>, keys: TextKeys, fetch: string -> string)
    requires !Names(keys, f.key)
    ensures Text(a + [f] + b, keys, fetch) == Text(a + b, keys, fetch)
  {
    FieldInPlace(a, f, b, keys, fetch);
    TextAppend(a, b, keys, fetch);
  }

  /** A field that is not a flag leaves the flag list as it would be without the field. */
  lemma ParametersSkipField(a: seq<Field>, f: Field, b: seq<Field>, escape: string -> string)
    requires f.key !in Flags
    ensures Parameters(a + [f] + b, escape) == Parameters(a + b, escape)
  {
    ParametersInPlace(a, f, b, escape);
    ParametersAppend(a, b, escape);
  }

  /** An externs field changes the externs text only: the source text and the flag list are
      what they would be without it. */
  lemma ExternsFieldOnlyFeedsExterns(a: seq<Field>, f: Field, b: seq<Field>, fetch: string -> string, escape: string -> string)
    requires Names(ExternsKeys, f.key)
    ensures Translate(a + [f] + b, fetch, escape).data == Translate(a + b, fetch, escape).data
    ensures Translate(a + [f] + b, fetch, escape).parameters == Translate(a + b, fetch, escape).parameters
    ensures Translate(a + [f] + b, fetch, escape).externs
         == Text(a, ExternsKeys, fetch) + Piece(f, ExternsKeys, fetch) + Text(b, ExternsKeys, fetch)
  {
    TextSkipsField(a, f, b, SourceKeys, fetch);
    ParametersSkipField(a, f, b, escape);
    FieldInPlace(a, f, b, ExternsKeys, fetch);
  }

  /** A field whose key the switch does not know changes nothing that is collected. */
  lemma UnroutedFieldDropped(a: seq<Field>, f: Field, b: seq<Field>, fetch: string -> string, escape: string -> string)
    requires !Routed(f.key)
    ensures Translate(a + [f] + b, fetch, escape) == Translate(a + b, fetch, escape)
  {
    TextSkipsField(a, f, b, SourceKeys, fetch);
    TextSkipsField(a, f, b, ExternsKeys, fetch);
    ParametersSkipField(a, f, b, escape);
  }

  /** The flag list has one entry per recognised flag field, in POST order, each the mapped
      flag followed by the escaped value. */
  lemma {:induction false} ParametersAreFlagEntries(fields: seq<Field>, escape: string -> string)
    ensures |Parameters(fields, escape)| == |FlagFields(fields)|
    ensures forall k :: 0 <= k < |FlagFields(fields)| ==>
              Parameters(fields, escape)[k] == FlagEntry(FlagFields(fields)[k], escape)
  {
    if fields != [] {
      ParametersAreFlagEntries(fields[..|fields| - 1], escape);
    }
  }

  /** Without a URL field the text does not depend on the fetch at all: inline text is used
      and nothing is fetched. */
  lemma {:induction false} NoUrlNoFetch(fields: seq<Field>, keys: TextKeys, fetch: string -> string, other: string -> string)
    requires forall k :: 0 <= k < |fields| ==> fields[k].key != keys.url
    ensures Text(fields, keys, fetch) == Text(fields, keys, other)
  {
    if fields != [] {
      NoUrlNoFetch(fields[..|fields| - 1], keys, fetch, other);
    }
  }

  /** Inline source and a source URL are both kept, in POST order: inline code takes no
      precedence over a URL. */
  lemma InlineAndUrlBothKept(code: string, url: string, fetch: string -> string)
    requires !EmptyString(url)
    ensures Text([Field("js_code", code), Field("code_url", url)], SourceKeys, fetch) == code + fetch(url)
  {
    FieldInPlace([Field("js_code", code)], Field("code_url", url), [], SourceKeys, fetch);
    FieldInPlace([], Field("js_code", code), [], SourceKeys, fetch);
    assert [Field("js_code", code)] + [Field("code_url", url)] + [] == [Field("js_code", code), Field("code_url", url)];
  }

  // ---------------------------------------------------------------------------
  // The missing-parameter guard and the command line

  const MissingParametersError := ServerError(0, "Missing required parameters.")
  const CompilerUnavailableError := ServerError(0, "Missing compiler or issue with configuration.")

  /** The guard: no source text (PHP `empty`, so "0" counts as none) or no flag. */
  predicate Missing(r: Request)
  {
    EmptyString(r.data) || |r.parameters| == 0
  }

  function ExternsFlag(path: string): string
  {
    "--externs " + path
  }

  /** The flag list after the externs text, when not empty, has been saved to a file. */
  function FinalParameters(r: Request, externsPath: string): seq<string>
  {
    if EmptyString(r.externs) then r.parameters else r.parameters + [ExternsFlag(externsPath)]
  }

  /** `implode(' ', parts)`. */
  function Join(parts: seq<string>): string
  {
    if |parts| == 0 then ""
    else if |parts| == 1 then parts[0]
    else Join(parts[..|parts| - 1]) + " " + parts[|parts| - 1]
  }

  function CommandLine(installDir: string, parameters: seq<string>): string
  {
    Command(installDir) + " " + Join(parameters)
  }

  /** What the script hands to `proc_open` and then writes to the child's standard input. */
  datatype Launch = Launch(commandLine: string, input: string)

  /** The launch the script performs, or None when the guard stops it first. */
  function Plan(fields: seq<Field>, host: Host): (r: Option<Launch>)
    ensures r.None? <==> EmptyString(Text(fields, SourceKeys, host.fetch)) || |FlagFields(fields)| == 0
    ensures r.Some? ==> r.value.input == Text(fields, SourceKeys, host.fetch)
  {
    var request := Translate(fields, host.fetch, host.escape);
    ParametersAreFlagEntries(fields, host.escape);
    if Missing(request) then None
    else Some(Launch(CommandLine(host.installDir, FinalParameters(request, host.externsPath)), request.data))
  }

  /** Joining two non-empty lists puts one space between their joined texts. */
  lemma {:induction false} JoinAppend(a: seq<string>, b: seq<string>)
    requires |a| > 0 && |b| > 0
    ensures Join(a + b) == Join(a) + " " + Join(b)
    decreases |b|
  {
    if |b| > 1 {
      var init := b[..|b| - 1];
      assert (a + b)[..|a + b| - 1] == a + init;
      assert (a + b)[|a + b| - 1] == b[|b| - 1];
      JoinAppend(a, init);
    } else {
      assert (a + b)[..|a + b| - 1] == a;
    }
  }

  predicate IsExternsEntry(p: string)
  {
    |p| >= 10 && p[..10] == "--externs "
  }

  function CountExternsEntries(ps: seq<string>): nat
  {
    if ps == [] then 0
    else CountExternsEntries(ps[..|ps| - 1]) + (if IsExternsEntry(ps[|ps| - 1]) then 1 else 0)
  }

  lemma FlagEntryIsNotExterns(f: Field, escape: string -> string)
    requires f.key in Flags
    ensures !IsExternsEntry(FlagEntry(f, escape))
  {
    var flag := Flags[f.key];
    assert flag == "--compilation_level" || flag == "--language_in" || flag == "--warning_level";
    assert FlagEntry(f, escape)[2] == flag[2] != 'e';
  }

  lemma {:induction false} NoExternsEntryAmongFlags(fields: seq<Field>, escape: string -> string)
    ensures CountExternsEntries(Parameters(fields, escape)) == 0
  {
    if fields != [] {
      var init, last := fields[..|fields| - 1], fields[|fields| - 1];
      NoExternsEntryAmongFlags(init, escape);
      var ps := Parameters(fields, escape);
      if last.key in Flags {
        FlagEntryIsNotExterns(last, escape);
        assert ps[..|ps| - 1] == Parameters(init, escape);
      } else {
        assert ps == Parameters(init, escape);
      }
    }
  }

  /** The flags handed to the compiler are the flag entries followed, exactly when the externs
      text is not empty, by one `--externs <path>` entry; no other entry names externs. */
  lemma ExternsEntryAfterFlags(fields: seq<Field>, host: Host)
    requires Plan(fields, host).Some?
    ensures var request := Translate(fields, host.fetch, host.escape);
            var ps := FinalParameters(request, host.externsPath);
            |ps| == |request.parameters| + (if EmptyString(request.externs) then 0 else 1) &&
            ps[..|request.parameters|] == request.parameters &&
            CountExternsEntries(ps) == (if EmptyString(request.externs) then 0 else 1) &&
            (!EmptyString(request.externs) ==> ps[|ps| - 1] == ExternsFlag(host.externsPath))
  {
    var request := Translate(fields, host.fetch, host.escape);
    NoExternsEntryAmongFlags(fields, host.escape);
    var ps := FinalParameters(request, host.externsPath);
    if !EmptyString(request.externs) {
      assert ps[..|ps| - 1] == request.parameters;
    }
  }

  /** With externs, the command line is the flag command line followed by the externs flag. */
  lemma CommandLineEndsWithExterns(fields: seq<Field>, host: Host)
    requires Plan(fields, host).Some?
    requires !EmptyString(Text(fields, ExternsKeys, host.fetch))
    ensures Plan(fields, host).value.commandLine
         == CommandLine(host.installDir, Parameters(fields, host.escape)) + " " + ExternsFlag(host.externsPath)
  {
    JoinAppend(Parameters(fields, host.escape), [ExternsFlag(host.externsPath)]);
  }

  // ---------------------------------------------------------------------------
  // Draining the child's output streams

  /** The read loop's end-of-file flags for standard output and standard error. */
  datatype EofFlags = EofFlags(stdout: bool, stderr: bool)
  {
    predicate Both()
    {
      stdout && stderr
    }
  }

  /** One `$x_eof = $x_eof || feof($x)` update of both flags. A flag once set stays set, and
      is set only by an end of stream actually observed. */
  function Observe(flags: EofFlags, stdoutAtEnd: bool, stderrAtEnd: bool): (r: EofFlags)
    ensures flags.stdout ==> r.stdout
    ensures flags.stderr ==> r.stderr
    ensures r.stdout ==> flags.stdout || stdoutAtEnd
    ensures r.stderr ==> flags.stderr || stderrAtEnd
  {
    EofFlags(flags.stdout || stdoutAtEnd, flags.stderr || stderrAtEnd)
  }

  /** Everything a stream delivered, in order. */
  function Concat(chunks: seq<string>): string
  {
    if chunks == [] then "" else Concat(chunks[..|chunks| - 1]) + chunks[|chunks| - 1]
  }

  /** The `do … while` loop that alternates between the two streams until both have ended.
      A stream is read only while its flag is clear, and the loop leaves only once both flags
      are set; neither stream loses a chunk. (The flags start clear, so testing the condition
      first, as `while` does, enters the body once just as `do … while` does.) */
  method ReadLoop(stdout: seq<string>, stderr: seq<string>)
    returns (outputBuffer: string, errorBuffer: string, flags: EofFlags)
    ensures outputBuffer == Concat(stdout)
    ensures errorBuffer == Concat(stderr)
    ensures flags.Both()
  {
    flags := EofFlags(false, false);
    outputBuffer, errorBuffer := "", "";
    var i, j := 0, 0;
    while !flags.Both()
      invariant i <= |stdout| && j <= |stderr|
      invariant flags.stdout ==> i == |stdout|
      invariant flags.stderr ==> j == |stderr|
      invariant outputBuffer == Concat(stdout[..i])
      invariant errorBuffer == Concat(stderr[..j])
      decreases |stdout| - i + |stderr| - j + (if flags.stdout then 0 else 1) + (if flags.stderr then 0 else 1)
    {
      flags := Observe(flags, i == |stdout|, j == |stderr|);
      if !flags.stdout {
        assert stdout[..i + 1][..i] == stdout[..i];
        outputBuffer := outputBuffer + stdout[i];
        i := i + 1;
      }
      if !flags.stderr {
        assert stderr[..j + 1][..j] == stderr[..j];
        errorBuffer := errorBuffer + stderr[j];
        j := j + 1;
      }
    }
    assert stdout[..i] == stdout && stderr[..j] == stderr;
  }

  // ---------------------------------------------------------------------------
  // The response

  /** The response the script prints for a POST: the missing-parameter error when nothing is
      launched, the configuration error when the launch fails, and otherwise the child's whole
      standard output with empty diagnostics. */
  function Reply(fields: seq<Field>, host: Host): (r: Response)
    ensures r.ServerErrors? ==> |r.serverErrors| == 1 && r.serverErrors[0].code == 0
    ensures Plan(fields, host).None? ==> r == ServerErrors([MissingParametersError])
    ensures Plan(fields, host).Some? ==>
              var launch := Plan(fields, host).value;
              (host.child(launch.commandLine, launch.input).SpawnFailed? ==> r == ServerErrors([CompilerUnavailableError])) &&
              (host.child(launch.commandLine, launch.input).Exited? ==>
                 r == Success(Concat(host.child(launch.commandLine, launch.input).stdout), [], []))
    ensures r.Success? ==> r.errors == [] && r.warnings == []
  {
    match Plan(fields, host)
    case None => ServerErrors([MissingParametersError])
    case Some(launch) =>
      match host.child(launch.commandLine, launch.input)
      case SpawnFailed => ServerErrors([CompilerUnavailableError])
      case Exited(stdout, _) => Success(Concat(stdout), [], [])
  }

  /** The whole script for one POST: routing, the guard, the externs file, the command line,
      the child process and the response. `launched` is the process started, if any. */
  method Serve(post: seq<Field>, host: Host) returns (response: Response, launched: Option<Launch>)
    ensures launched == Plan(post, host)
    ensures response == Reply(post, host)
    ensures launched.None? <==> EmptyString(Text(post, SourceKeys, host.fetch)) || |FlagFields(post)| == 0
  {
    var data, externs, parameters := Collect(post, host.fetch, host.escape);
    if EmptyString(data) || |parameters| == 0 {
      return ServerErrors([MissingParametersError]), None;
    }
    if !EmptyString(externs) {
      parameters := parameters + [ExternsFlag(host.externsPath)];
    }
    var commandLine := CommandLine(host.installDir, parameters);
    launched := Some(Launch(commandLine, data));
    match host.child(commandLine, data)
    case SpawnFailed =>
      response := ServerErrors([CompilerUnavailableError]);
    case Exited(stdout, stderr) =>
      var outputBuffer, errorBuffer, flags := ReadLoop(stdout, stderr);
      response := Success(outputBuffer, [], []);
  }
}
