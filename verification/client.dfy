/** The one-shot client as a pure function of the outcomes its stages report:
    build the request, call the server, decode `{bid}`, reject an empty bid,
    write `cotacao.txt`. Any failure is fatal (`log.Fatal`, exit status 1)
    and nothing after it runs. The file is modelled as its contents, absent
    when it does not exist. */
module Client {
  import opened Optional
  import opened Outcomes
  import opened Wire

  /** The single budget for the request and the body decode, in ms (Go `clientTimeout`). */
  const ClientTimeoutMs: nat := 300
  /** The endpoint the client calls. */
  const ServerURL: string := "http://localhost:8080/cotacao"
  /** What precedes the bid in the saved file. */
  const SavedPrefix: string := "Dólar: "

  /** `os.WriteFile`: it opens the file truncating it, writes, and closes.
      Failing to open leaves the file as it was; failing later leaves the
      first `charsWritten` characters of the new contents (the whole of them
      when only the close failed). */
  datatype WriteOutcome = Written | OpenFailed(msg: string) | WriteFailed(msg: string, charsWritten: nat)

  datatype ClientStages = ClientStages(
    build: BuildOutcome,
    fetch: CallOutcome,
    decode: Decoding<QuoteResponse>,
    write: WriteOutcome)

  datatype ClientError =
    | RequestBuildError
    | ClientTimeout
    | ClientTransportError
    | ClientDecodeError
    | ClientEmptyBidError
    | FileWriteError

  /** How the process ends: normally, or through `log.Fatal`. */
  datatype Exit = Saved | Fatal(error: ClientError)

  /** `announced`: whether the success line was logged. */
  datatype RunResult = RunResult(exit: Exit, file: Option<string>, announced: bool)

  /** The process exit status. */
  function ExitStatus(e: Exit): (code: nat)
    ensures code == 0 <==> e.Saved?
    ensures e.Fatal? ==> code == 1
  {
    if e.Saved? then 0 else 1
  }

  /** The saved file: the prefix, the bid, a newline. */
  function FileContent(bid: string): (content: string)
    ensures |content| == |SavedPrefix| + |bid| + 1
    ensures content[..|SavedPrefix|] == SavedPrefix
    ensures content[|SavedPrefix|..|content| - 1] == bid
    ensures content[|content| - 1] == '\n'
  {
    SavedPrefix + bid + "\n"
  }

  /** Reads a bid back from a saved file; `None` for anything not of that shape. */
  function ParseSaved(content: string): Option<string> {
    if |content| > |SavedPrefix| && content[..|SavedPrefix|] == SavedPrefix && content[|content| - 1] == '\n' then
      Some(content[|SavedPrefix|..|content| - 1])
    else
      None
  }

  /** The saved file records exactly its bid ... */
  lemma ParseSavedInvertsFileContent(bid: string)
    ensures ParseSaved(FileContent(bid)) == Some(bid)
  {
  }

  /** ... and every file that reads back as a bid is that bid's saved file,
      so different bids are never saved as the same contents. */
  lemma FileContentInvertsParseSaved(content: string, bid: string)
    requires ParseSaved(content) == Some(bid)
    ensures content == FileContent(bid)
  {
  }

  /** Request built, server answered, body decoded, bid non-empty. */
  predicate ReachesWrite(s: ClientStages) {
    && s.build.Built?
    && s.fetch.Completed?
    && s.decode.Decoded?
    && s.decode.value.bid != ""
  }

  /** The bid the server sent. */
  function ServerBid(s: ClientStages): string
    requires s.decode.Decoded?
  {
    s.decode.value.bid
  }

  function Die(e: ClientError, file: Option<string>): RunResult {
    RunResult(Fatal(e), file, false)
  }

  /** One run of the client against a file that holds `file` beforehand. */
  function Run(s: ClientStages, file: Option<string>): (r: RunResult)
    // success exactly when every stage, the write included, succeeded; then
    // the file holds exactly the saved bid, whatever it held before
    ensures r.exit.Saved? <==> ReachesWrite(s) && s.write.Written?
    ensures r.exit.Saved? ==> r.file == Some(FileContent(ServerBid(s)))
    ensures r.announced <==> r.exit.Saved?
    // the file is not touched unless every stage before the write succeeded,
    // and a failed write leaves it as it was or holds a prefix of the contents
    ensures !ReachesWrite(s) ==> r.file == file
    ensures r.file != file ==> ReachesWrite(s) && r.file.Some? && r.file.value <= FileContent(ServerBid(s))
    ensures ReachesWrite(s) && s.write.OpenFailed? ==> r.file == file
    ensures ReachesWrite(s) && s.write.WriteFailed? ==>
              var content := FileContent(ServerBid(s));
              r.file.Some? && r.file.value <= content
              && |r.file.value| == (if s.write.charsWritten < |content| then s.write.charsWritten else |content|)
    // which failure ends the run
    ensures r.exit == Fatal(RequestBuildError) <==> s.build.BuildFailed?
    ensures r.exit == Fatal(ClientTimeout) <==> s.build.Built? && s.fetch.TimedOut?
    ensures r.exit == Fatal(ClientTransportError) <==> s.build.Built? && s.fetch.Failed?
    ensures r.exit == Fatal(ClientDecodeError) <==> s.build.Built? && s.fetch.Completed? && s.decode.DecodeFailed?
    ensures r.exit == Fatal(ClientEmptyBidError) <==>
              s.build.Built? && s.fetch.Completed? && s.decode.Decoded? && ServerBid(s) == ""
    ensures r.exit == Fatal(FileWriteError) <==> ReachesWrite(s) && !s.write.Written?
  {
    match s.build
    case BuildFailed(_) => Die(RequestBuildError, file)
    case Built =>
      match s.fetch
      case TimedOut(_) => Die(ClientTimeout, file)
      case Failed(_) => Die(ClientTransportError, file)
      case Completed =>
        match s.decode
        case DecodeFailed(_) => Die(ClientDecodeError, file)
        case Decoded(quote) =>
          if quote.bid == "" then Die(ClientEmptyBidError, file)
          else
            var content := FileContent(quote.bid);
            match s.write
            case Written => RunResult(Saved, Some(content), true)
            case OpenFailed(_) => Die(FileWriteError, file)
            case WriteFailed(_, n) =>
              Die(FileWriteError, Some(content[..if n < |content| then n else |content|]))
  }

  /** A timed-out request and any other transport failure end the run alike;
      only the reported error differs. */
  lemma TimeoutOnlyChangesError(s: ClientStages, msg: string, file: Option<string>)
    requires s.build.Built?
    ensures var t := Run(s.(fetch := TimedOut(msg)), file);
            var f := Run(s.(fetch := Failed(msg)), file);
            t.file == f.file == file && t.announced == f.announced == false
            && ExitStatus(t.exit) == ExitStatus(f.exit) == 1 && t.exit != f.exit
  {
  }

  /** Each successful run replaces the whole file: after two successful runs
      the file records only the second bid, whatever it held at first. */
  lemma LastSuccessfulRunWins(first: ClientStages, second: ClientStages, file: Option<string>)
    requires ReachesWrite(first) && first.write.Written?
    requires ReachesWrite(second) && second.write.Written?
    ensures ParseSaved(Run(second, Run(first, file).file).file.value) == Some(ServerBid(second))
  {
  }
}
