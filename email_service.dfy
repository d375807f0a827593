/** Report delivery (app/services/email_service.py): SendGrid when a key is configured, otherwise,
    and whenever SendGrid fails, a record appended to the `emails.log` file. The SendGrid call and
    the file are inputs: the call's outcome is given, and the file is a sequence of records that
    only ever grows. */
module Email {
  import opened Common
  import opened AppConfig

  /** What `sg.send(message)` did: answered with an HTTP status, or raised. */
  datatype SendGridOutcome = Status(code: int) | SendRaised(message: string)

  /** One report as `_log_email_to_file` writes it. */
  datatype LogRecord = LogRecord(to: seq<string>, subject: string, body: string)

  /** Which way a report went. */
  datatype Delivery = NoRecipients | SentViaSendGrid | WrittenToLog | LogWriteFailed

  /** The delimiter line, 50 '=' characters. */
  function Rule(): (r: string)
    ensures |r| == 50 && forall i :: 0 <= i < 50 ==> r[i] == '='
  {
    seq(50, _ => '=')
  }

  /** The text `_log_email_to_file` appends for one record: an empty line and the delimiter, the
      recipients joined by ", ", the subject, the BODY marker, the body, and the delimiter again. */
  function RecordText(r: LogRecord): (text: string)
    ensures StartsWith(text, "\n" + Rule())
    ensures EndsWith(text, Rule() + "\n")
  {
    var ls := ["", Rule(), "TO: " + Join(r.to, ", "), "SUBJECT: " + r.subject, "BODY:", r.body, Rule()];
    LinesFirstLast(ls);
    assert ls[1..][0] == Rule() && Lines(ls) == "\n" + Lines(ls[1..]);
    LinesFirstLast(ls[1..]);
    assert ("\n" + Lines(ls[1..]))[..|"\n" + Rule()|] == "\n" + Lines(ls[1..])[..|Rule()|];
    Lines(ls)
  }

  /** Read line by line, a record is an empty line, the delimiter, the TO and SUBJECT lines, the
      BODY marker, the lines of the body, and the delimiter again, as long as the recipients and
      the subject hold no line break. */
  lemma RecordLines(r: LogRecord)
    requires '\n' !in Join(r.to, ", ") && '\n' !in r.subject
    ensures Split(RecordText(r), '\n') ==
      ["", Rule(), "TO: " + Join(r.to, ", "), "SUBJECT: " + r.subject, "BODY:"]
      + Split(r.body, '\n') + [Rule(), ""]
  {
    var to, subject := "TO: " + Join(r.to, ", "), "SUBJECT: " + r.subject;
    assert '\n' !in Rule();
    assert '\n' !in to && '\n' !in subject;
    var head := ["", Rule(), to, subject, "BODY:"];
    assert head + [r.body] + [Rule()] == ["", Rule(), to, subject, "BODY:", r.body, Rule()];
    SplitLinesAround(head, r.body, [Rule()]);
  }

  /** The records one `send_report` call appends: none without recipients or after SendGrid
      accepted the message, and otherwise exactly one unless the file cannot be opened. */
  function Appended(env: Env, recipients: seq<string>, subject: string, body: string,
                    sendGrid: SendGridOutcome, logWritable: bool): (rs: seq<LogRecord>)
    ensures rs == [] || rs == [LogRecord(recipients, subject, body)]
    ensures recipients == [] || !logWritable ==> rs == []
    ensures recipients != [] && logWritable && env.sendGridKey == "" ==> |rs| == 1
    ensures recipients != [] && logWritable && env.sendGridKey != "" ==>
      (|rs| == 1 <==> sendGrid.SendRaised? || sendGrid.code >= 400)
  {
    if recipients == [] then []
    else if env.sendGridKey != "" && sendGrid.Status? && sendGrid.code < 400 then []
    else if logWritable then [LogRecord(recipients, subject, body)]
    else []
  }

  /** The log file: the records in the order they were appended. */
  class MailLog {
    var records: seq<LogRecord>

    constructor ()
      ensures records == []
    {
      records := [];
    }

    /** The bytes of the file. */
    function Text(): string
      reads this
    {
      Texts(records)
    }

    /** `_log_email_to_file`: one more record when the file can be opened in append mode, nothing
        when opening fails (the error is logged, not raised). */
    method Write(r: LogRecord, writable: bool)
      modifies this
      ensures records == old(records) + (if writable then [r] else [])
    {
      if writable {
        records := records + [r];
      }
    }
  }

  /** The records written one after the other. */
  function Texts(rs: seq<LogRecord>): string {
    if rs == [] then "" else Texts(rs[..|rs| - 1]) + RecordText(rs[|rs| - 1])
  }

  /** The text of records written in two runs is the text of the first run followed by the text of
      the second: the file only ever grows at its end. */
  lemma {:induction false} TextsAppend(rs: seq<LogRecord>, more: seq<LogRecord>)
    ensures Texts(rs + more) == Texts(rs) + Texts(more)
  {
    if more != [] {
      var last := more[|more| - 1];
      var init := more[..|more| - 1];
      assert (rs + more)[..|rs + more| - 1] == rs + init;
      assert (rs + more)[|rs + more| - 1] == last;
      TextsAppend(rs, init);
      calc {
        Texts(rs + more);
        Texts(rs + init) + RecordText(last);
        Texts(rs) + Texts(init) + RecordText(last);
        Texts(rs) + (Texts(init) + RecordText(last));
        Texts(rs) + Texts(more);
      }
    } else {
      assert rs + more == rs;
    }
  }

  /** `send_report`: the report goes to SendGrid when a key is configured and to the log otherwise or
      when SendGrid answers with an error status or raises; nothing happens without recipients.
      Previous records are kept: the file only grows, by at most one record. */
  method SendReport(log: MailLog, env: Env, recipients: seq<string>, subject: string, body: string,
                    sendGrid: SendGridOutcome, logWritable: bool)
    returns (d: Delivery)
    modifies log
    ensures log.records == old(log.records) + Appended(env, recipients, subject, body, sendGrid, logWritable)
    ensures d == NoRecipients <==> recipients == []
    ensures d == SentViaSendGrid <==> recipients != [] && env.sendGridKey != "" && sendGrid.Status? && sendGrid.code < 400
    ensures d == WrittenToLog <==> |log.records| == |old(log.records)| + 1
  {
    if recipients == [] {
      d := NoRecipients;
    } else if env.sendGridKey != "" && sendGrid.Status? && sendGrid.code < 400 {
      d := SentViaSendGrid;
    } else {
      var r := LogRecord(recipients, subject, body);
      log.Write(r, logWritable);
      d := if logWritable then WrittenToLog else LogWriteFailed;
    }
  }
}
