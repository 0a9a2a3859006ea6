/**
 * What a script run does to the outside world, as an ordered log: lines
 * written to standard output and calls made on the XNAT connection.  The
 * connection itself is foreign; only the calls the scripts issue on it
 * explicitly are recorded.
 */
module Effects {

  datatype Option<T> = None | Some(value: T)

  /** A Python exception that ends a script's loop (nothing in the scripts catches it). */
  datatype PyError = ValueError | IndexError | TypeError

  /** How an operation ended: normally, or by an exception propagating out of it. */
  datatype Outcome = Completed | Raised(error: PyError)

  datatype Event =
    | Print(line: string)                            // print(line)
    | Get(path: string)                              // connection.get_json(path)
    | Put(path: string, query: map<string, string>)  // connection.put(path[, query=...])
    | Delete(path: string, removeFiles: bool)        // object.delete(remove_files=...)
    | Disconnect                                     // connection.disconnect()

  /** The events of one operation and how it ended. */
  datatype Run = Run(log: seq<Event>, outcome: Outcome)

  /** The lines written to standard output, in order. */
  function Printed(log: seq<Event>): (lines: seq<string>)
    ensures |lines| <= |log|
  {
    if log == [] then []
    else Printed(log[..|log| - 1]) + (if log[|log| - 1].Print? then [log[|log| - 1].line] else [])
  }

  /** The calls made on the connection, in order. */
  function Calls(log: seq<Event>): (calls: seq<Event>)
    ensures |calls| <= |log|
  {
    if log == [] then []
    else Calls(log[..|log| - 1]) + (if log[|log| - 1].Print? then [] else [log[|log| - 1]])
  }

  /** Printing distributes over concatenation of logs. */
  lemma {:induction false} PrintedAppend(a: seq<Event>, b: seq<Event>)
    ensures Printed(a + b) == Printed(a) + Printed(b)
    decreases |b|
  {
    if b != [] {
      var b' := b[..|b| - 1];
      assert (a + b)[..|a + b| - 1] == a + b';
      PrintedAppend(a, b');
    } else {
      assert a + b == a;
    }
  }

  /** Calling distributes over concatenation of logs. */
  lemma {:induction false} CallsAppend(a: seq<Event>, b: seq<Event>)
    ensures Calls(a + b) == Calls(a) + Calls(b)
    decreases |b|
  {
    if b != [] {
      var b' := b[..|b| - 1];
      assert (a + b)[..|a + b| - 1] == a + b';
      CallsAppend(a, b');
    } else {
      assert a + b == a;
    }
  }

  /** Every event that is not a print shows up among the calls. */
  lemma {:induction false} CallsKeep(log: seq<Event>, k: nat)
    requires k < |log| && !log[k].Print?
    ensures log[k] in Calls(log)
    decreases |log|
  {
    if k < |log| - 1 {
      CallsKeep(log[..|log| - 1], k);
    }
  }

  /** A log without prints is all calls and prints nothing. */
  lemma {:induction false} CallsOnly(log: seq<Event>)
    requires forall k :: 0 <= k < |log| ==> !log[k].Print?
    ensures Calls(log) == log
    ensures Printed(log) == []
    decreases |log|
  {
    if log != [] {
      CallsOnly(log[..|log| - 1]);
    }
  }

  /** The log of printing `lines`, one print per line. */
  function Prints(lines: seq<string>): (log: seq<Event>)
    ensures |log| == |lines|
  {
    seq(|lines|, k requires 0 <= k < |lines| => Print(lines[k]))
  }

  lemma {:induction false} PrintedPrints(lines: seq<string>)
    ensures Printed(Prints(lines)) == lines
    decreases |lines|
  {
    if lines != [] {
      PrintedPrints(lines[..|lines| - 1]);
      assert Prints(lines)[..|lines| - 1] == Prints(lines[..|lines| - 1]);
    }
  }

  lemma {:induction false} CallsPrints(lines: seq<string>)
    ensures Calls(Prints(lines)) == []
    decreases |lines|
  {
    if lines != [] {
      CallsPrints(lines[..|lines| - 1]);
      assert Prints(lines)[..|lines| - 1] == Prints(lines[..|lines| - 1]);
    }
  }

  /** A fetch followed by prints: the fetch is the only call, and the prints are the output. */
  lemma FetchThenPrintCalls(path: string, lines: seq<string>)
    ensures Calls([Get(path)] + Prints(lines)) == [Get(path)]
  {
    CallsAppend([Get(path)], Prints(lines));
    CallsPrints(lines);
    CallsOnly([Get(path)]);
  }

  lemma FetchThenPrintPrinted(path: string, lines: seq<string>)
    ensures Printed([Get(path)] + Prints(lines)) == lines
  {
    PrintedAppend([Get(path)], Prints(lines));
    PrintedPrints(lines);
    CallsOnly([Get(path)]);
  }

  /**
   * A script's main block: a first printed line, the chosen operation, then
   * `disconnect()` -- reached only if no exception escaped the operation,
   * since the scripts have no try/finally.
   */
  function MainBlock(first: string, body: Run): Run
  {
    Run([Print(first)] + body.log + (if body.outcome.Completed? then [Disconnect] else []), body.outcome)
  }

  /** The main block adds no call but the final disconnect. */
  lemma MainBlockCalls(first: string, body: Run)
    ensures Calls(MainBlock(first, body).log) ==
      Calls(body.log) + (if body.outcome.Completed? then [Disconnect] else [])
  {
    var tail := if body.outcome.Completed? then [Disconnect] else [];
    assert MainBlock(first, body).log == Prints([first]) + body.log + tail;
    CallsAppend(Prints([first]), body.log);
    CallsAppend(Prints([first]) + body.log, tail);
    CallsPrints([first]);
    CallsOnly(tail);
  }

  /** When the operation itself never disconnects, the run ends disconnected exactly when it completed. */
  lemma MainBlockDisconnects(first: string, body: Run)
    requires Disconnect !in body.log
    ensures var log := MainBlock(first, body).log;
      (Disconnect in log <==> body.outcome.Completed?) &&
      (body.outcome.Completed? ==> log[|log| - 1] == Disconnect)
  {
  }

  lemma PrintsAppend(a: seq<string>, b: seq<string>)
    ensures Prints(a + b) == Prints(a) + Prints(b)
  {
  }

  lemma PrintsSnoc(lines: seq<string>, line: string)
    ensures Prints(lines + [line]) == Prints(lines) + [Print(line)]
  {
  }

  /** Python's f-string rendering of an optional string argument: `None` prints as "None". */
  function Show(o: Option<string>): string
  {
    match o
    case Some(s) => s
    case None => "None"
  }

  /** Python truthiness of an optional string argument. */
  predicate Truthy(o: Option<string>)
  {
    o.Some? && o.value != ""
  }

  /**
   * The line both `users.py` and `sessions.py` print before connecting:
   * an absent `--extension_types` is first replaced by `False`.
   */
  function ExtensionTypesEcho(e: Option<string>): string
  {
    "args.extension_types: " + (if e.None? then "False" else e.value)
  }

  /** An absent flag and `-e False` echo the same line. */
  lemma EchoAbsentAsFalse()
    ensures ExtensionTypesEcho(None) == ExtensionTypesEcho(Some("False"))
  {
  }
}
