/** The processing of a finished recording (app/services/processing_service.py): the tenant's
    recipients are parsed from its settings, the recording is transcribed and summarised when an
    OpenAI key is configured, and one report is composed and handed to the mail dispatch. The AI
    calls, the clock and the time zone lookup are inputs. */
module Processing {
  import opened Common
  import opened Dicts
  import opened Ttl
  import opened Sheets
  import opened AppConfig
  import opened TenantCache
  import opened Email

  // ---------------------------------------------------------------- recipients

  /** The parts that are not blank, each stripped, in order. */
  function Cleaned(parts: seq<string>): (rs: seq<string>)
    ensures |rs| <= |parts|
  {
    if parts == [] then []
    else if Strip(parts[0]) == "" then Cleaned(parts[1..])
    else [Strip(parts[0])] + Cleaned(parts[1..])
  }

  /** Every cleaned part is non-empty and stripped. */
  lemma {:induction false} CleanedStripped(parts: seq<string>)
    ensures forall i :: 0 <= i < |Cleaned(parts)| ==> Cleaned(parts)[i] != "" && Stripped(Cleaned(parts)[i])
  {
    if parts != [] {
      var rest := Cleaned(parts[1..]);
      CleanedStripped(parts[1..]);
      var h := Strip(parts[0]);
      if h != "" {
        StripStripped(parts[0]);
        var rs := [h] + rest;
        assert Cleaned(parts) == rs;
        forall i | 0 <= i < |rs| ensures rs[i] != "" && Stripped(rs[i]) {
          if i > 0 {
            assert rs[i] == rest[i - 1];
          }
        }
      }
    }
  }

  /** A character none of the parts holds is in none of the cleaned parts. */
  lemma {:induction false} CleanedKeepsOut(parts: seq<string>, c: char)
    requires forall i :: 0 <= i < |parts| ==> c !in parts[i]
    ensures forall i :: 0 <= i < |Cleaned(parts)| ==> c !in Cleaned(parts)[i]
  {
    if parts != [] {
      var rest := Cleaned(parts[1..]);
      assert forall i :: 0 <= i < |parts[1..]| ==> parts[1..][i] == parts[i + 1];
      CleanedKeepsOut(parts[1..], c);
      var h := Strip(parts[0]);
      if h != "" {
        StripKeepsOut(parts[0], c);
        var rs := [h] + rest;
        assert Cleaned(parts) == rs;
        forall i | 0 <= i < |rs| ensures c !in rs[i] {
          if i > 0 {
            assert rs[i] == rest[i - 1];
          }
        }
      }
    }
  }

  /** Strip only cuts away characters: one the text lacks is not in its stripped form either. */
  lemma StripKeepsOut(s: string, c: char)
    ensures c !in s ==> c !in Strip(s)
  {
    var l := TrimLeft(s);
    var k := |s| - |l|;
    assert l == s[k..];
    var r := TrimRight(l);
    assert r == l[..|r|] && r == Strip(s);
    if c !in s {
      forall m | 0 <= m < |r| ensures r[m] != c {
        assert r[m] == s[k + m];
      }
    }
  }

  /** `[r.strip() for r in raw.split(",") if r.strip()]`: every recipient is non-empty, stripped
      and free of commas. */
  function ParseRecipients(raw: string): (rs: seq<string>)
    ensures forall i :: 0 <= i < |rs| ==> rs[i] != "" && Stripped(rs[i]) && ',' !in rs[i]
  {
    CleanedKeepsOut(Split(raw, ','), ',');
    CleanedStripped(Split(raw, ','));
    Cleaned(Split(raw, ','))
  }

  /** A space in front of a stripped, non-empty text is stripped away again. */
  lemma StripSpaced(r: string)
    requires r != "" && Stripped(r)
    ensures Strip(" " + r) == r
  {
    assert (" " + r)[1..] == r;
    TrimLeftOfUnspaced(r);
    TrimRightOfUnspaced(r);
  }

  /** Each text with a space put in front. */
  function Spaced(xs: seq<string>): (ys: seq<string>)
    ensures |ys| == |xs|
  {
    if xs == [] then [] else [" " + xs[0]] + Spaced(xs[1..])
  }

  /** Split at commas, recipients joined by ", " come back with a space in front of all but the
      first. */
  lemma {:induction false} SplitJoinSpaced(rs: seq<string>)
    requires rs != []
    requires forall i :: 0 <= i < |rs| ==> ',' !in rs[i]
    ensures Split(Join(rs, ", "), ',') == [rs[0]] + Spaced(rs[1..])
    decreases |rs|
  {
    if |rs| == 1 {
      SplitNoSep(rs[0], ',');
    } else {
      var j := Join(rs[1..], ", ");
      assert Join(rs, ", ") == rs[0] + [','] + (" " + j);
      SplitAppend(rs[0], " " + j, ',');
      SplitJoinSpaced(rs[1..]);
      assert (" " + j)[1..] == j;
      assert Split(" " + j, ',') == [" " + rs[1]] + Spaced(rs[2..]);
      assert rs[1..][1..] == rs[2..];
    }
  }

  /** Reading back recipients written as `", ".join(rs)` gives rs again, for any list of
      non-empty, stripped, comma-free addresses; an empty setting gives no recipients. */
  lemma ParseJoined(rs: seq<string>)
    requires forall i :: 0 <= i < |rs| ==> rs[i] != "" && Stripped(rs[i]) && ',' !in rs[i]
    ensures ParseRecipients(Join(rs, ", ")) == rs
  {
    if rs == [] {
      assert Split("", ',') == [""];
    } else {
      SplitJoinSpaced(rs);
      CleanedSpaced(rs);
    }
  }

  lemma CleanedCons(p: string, rest: seq<string>)
    requires p != "" && Stripped(p)
    ensures Cleaned([p] + rest) == [p] + Cleaned(rest)
  {
    StripStripped(p);
    assert ([p] + rest)[1..] == rest;
  }

  lemma CleanedSpacedCons(x: string, rest: seq<string>)
    requires x != "" && Stripped(x)
    ensures Cleaned([" " + x] + rest) == [x] + Cleaned(rest)
  {
    StripSpaced(x);
    assert ([" " + x] + rest)[1..] == rest;
  }

  lemma {:induction false} CleanedOfSpaced(xs: seq<string>)
    requires forall i :: 0 <= i < |xs| ==> xs[i] != "" && Stripped(xs[i])
    ensures Cleaned(Spaced(xs)) == xs
  {
    if xs != [] {
      var rest := xs[1..];
      assert forall i :: 0 <= i < |rest| ==> rest[i] == xs[i + 1];
      calc {
        Cleaned(Spaced(xs));
        Cleaned([" " + xs[0]] + Spaced(rest));
        { CleanedSpacedCons(xs[0], Spaced(rest)); }
        [xs[0]] + Cleaned(Spaced(rest));
        { CleanedOfSpaced(rest); }
        [xs[0]] + rest;
        xs;
      }
    }
  }

  lemma CleanedSpaced(rs: seq<string>)
    requires rs != []
    requires forall i :: 0 <= i < |rs| ==> rs[i] != "" && Stripped(rs[i])
    ensures Cleaned([rs[0]] + Spaced(rs[1..])) == rs
  {
    var rest := rs[1..];
    assert forall i :: 0 <= i < |rest| ==> rest[i] == rs[i + 1];
    calc {
      Cleaned([rs[0]] + Spaced(rest));
      { CleanedCons(rs[0], Spaced(rest)); }
      [rs[0]] + Cleaned(Spaced(rest));
      { CleanedOfSpaced(rest); }
      [rs[0]] + rest;
      rs;
    }
  }

  // ---------------------------------------------------------------- transcript and summary

  /** What an AI call gave back: text, or an exception with its message. */
  datatype AiOutcome = Returned(text: string) | Failed(message: string)

  const NoTranscript := "Transcription not available"
  const NoSummary := "Summary not available"
  const NoKeyTranscript := "Transcription not available (API key not configured)"
  const NoKeySummary := "Summary not available (API key not configured)"
  const FailedSummary := "Summary not available due to transcription error"

  /** The transcription service reports its own failures as text starting with "Error"; only a
      non-empty transcript that does not is summarised. */
  predicate WorthSummarising(transcript: string) {
    transcript != "" && !StartsWith(transcript, "Error")
  }

  datatype Analysis = Analysis(transcript: string, summary: string, summarised: bool)

  /** The degradation rules of the AI stage: placeholders without a key; with one, the transcript,
      and the summary only of a usable transcript; an exception from either call replaces both
      with the error texts. */
  function Stages(openAiKey: string, transcribe: AiOutcome, summarise: string -> AiOutcome): (a: Analysis)
    ensures openAiKey == "" ==> a == Analysis(NoKeyTranscript, NoKeySummary, false)
    ensures a.summarised <==> openAiKey != "" && transcribe.Returned? && WorthSummarising(transcribe.text)
    ensures openAiKey != "" && transcribe.Failed? ==>
      a == Analysis("Transcription error: " + transcribe.message, FailedSummary, false)
    ensures openAiKey != "" && transcribe.Returned? && !WorthSummarising(transcribe.text) ==>
      a == Analysis(transcribe.text, NoSummary, false)
    ensures a.summarised && summarise(transcribe.text).Returned? ==>
      a == Analysis(transcribe.text, summarise(transcribe.text).text, true)
    ensures a.summarised && summarise(transcribe.text).Failed? ==>
      a == Analysis("Transcription error: " + summarise(transcribe.text).message, FailedSummary, true)
  {
    if openAiKey == "" then Analysis(NoKeyTranscript, NoKeySummary, false)
    else match transcribe
      case Failed(e) => Analysis("Transcription error: " + e, FailedSummary, false)
      case Returned(t) =>
        if !WorthSummarising(t) then Analysis(t, NoSummary, false)
        else match summarise(t)
          case Returned(s) => Analysis(t, s, true)
          case Failed(e) => Analysis("Transcription error: " + e, FailedSummary, true)
  }

  /** The failure texts of the transcription service are never summarised, and neither is an empty
      transcript: the summary then stays the placeholder. */
  lemma ServiceErrorsNotSummarised(openAiKey: string, detail: string, summarise: string -> AiOutcome)
    requires openAiKey != ""
    ensures Stages(openAiKey, Returned("Error downloading audio: " + detail), summarise).summary == NoSummary
    ensures Stages(openAiKey, Returned("Error during transcription: " + detail), summarise).summary == NoSummary
    ensures Stages(openAiKey, Returned(""), summarise).summary == NoSummary
  {
    assert ("Error downloading audio: " + detail)[..5] == "Error";
    assert ("Error during transcription: " + detail)[..5] == "Error";
  }

  /** The AI stage as the code runs it: the two results start as placeholders and are reassigned
      along the branches. */
  method Analyse(openAiKey: string, transcribe: AiOutcome, summarise: string -> AiOutcome)
    returns (a: Analysis)
    ensures a == Stages(openAiKey, transcribe, summarise)
  {
    var transcript := NoTranscript;
    var summary := NoSummary;
    var summarised := false;
    if openAiKey != "" {
      match transcribe {
        case Failed(e) =>
          transcript := "Transcription error: " + e;
          summary := FailedSummary;
        case Returned(t) =>
          transcript := t;
          if transcript != "" && !StartsWith(transcript, "Error") {
            summarised := true;
            match summarise(transcript) {
              case Returned(s) =>
                summary := s;
              case Failed(e) =>
                transcript := "Transcription error: " + e;
                summary := FailedSummary;
            }
          }
      }
    } else {
      transcript := NoKeyTranscript;
      summary := NoKeySummary;
    }
    a := Analysis(transcript, summary, summarised);
  }

  // ---------------------------------------------------------------- subject and body

  /** The report subject: the store name, " Call | Menu " and the menu, then the caller, ending in
      " | recording". */
  function ReportSubject(store: string, menu: string, from: string): (subject: string)
    ensures StartsWith(subject, store + " Call | Menu " + menu)
    ensures EndsWith(subject, " | " + from + " | recording")
  {
    var head, tail := store + " Call | Menu " + menu, " | " + from + " | recording";
    assert (head + tail)[..|head|] == head;
    assert (head + tail)[|head + tail| - |tail|..] == tail;
    assert head + tail == store + " Call | Menu " + menu + " | " + from + " | recording";
    store + " Call | Menu " + menu + " | " + from + " | recording"
  }

  /** The subject is its four fields joined by '|'. */
  lemma SubjectJoined(store: string, menu: string, from: string)
    ensures ReportSubject(store, menu, from) ==
      Join([store + " Call ", " Menu " + menu + " ", " " + from + " ", " recording"], "|")
  {
    var f1, f2, f3, f4 := store + " Call ", " Menu " + menu + " ", " " + from + " ", " recording";
    calc {
      Join([f1, f2, f3, f4], "|");
      { JoinFour(f1, f2, f3, f4, "|"); }
      f1 + "|" + f2 + "|" + f3 + "|" + f4;
      { assert f1 + "|" + f2 == store + " Call | Menu " + menu + " "; }
      store + " Call | Menu " + menu + " " + "|" + f3 + "|" + f4;
      { assert store + " Call | Menu " + menu + " " + "|" + f3 == store + " Call | Menu " + menu + " | " + from + " "; }
      store + " Call | Menu " + menu + " | " + from + " " + "|" + f4;
      ReportSubject(store, menu, from);
    }
  }

  lemma JoinFour(a: string, b: string, c: string, d: string, sep: string)
    ensures Join([a, b, c, d], sep) == a + sep + b + sep + c + sep + d
  {
    var l := [a, b, c, d];
    assert l[1..] == [b, c, d] && l[1..][1..] == [c, d] && l[1..][1..][1..] == [d];
    calc {
      Join(l, sep);
      a + sep + Join([b, c, d], sep);
      a + sep + (b + sep + Join([c, d], sep));
      a + sep + (b + sep + (c + sep + d));
      { assert b + sep + (c + sep + d) == b + sep + c + sep + d; }
      a + sep + (b + sep + c + sep + d);
      a + sep + b + sep + c + sep + d;
    }
  }

  /** The subject has four '|'-separated fields: the store, the menu selection, the caller and the
      word "recording", provided the three values hold no '|'. */
  lemma SubjectFields(store: string, menu: string, from: string)
    requires '|' !in store && '|' !in menu && '|' !in from
    ensures Split(ReportSubject(store, menu, from), '|') ==
      [store + " Call ", " Menu " + menu + " ", " " + from + " ", " recording"]
  {
    SubjectJoined(store, menu, from);
    var l := [store + " Call ", " Menu " + menu + " ", " " + from + " ", " recording"];
    assert forall i :: 0 <= i < 4 ==> '|' !in l[i];
    SplitJoin(l, '|');
  }

  /** The values the report body shows. */
  datatype Report = Report(store: string, from: string, timestamp: string, timezone: string,
                           menu: string, duration: string, callSid: string, summary: string,
                           transcript: string, recordingUrl: string)

  /** A section bar, 40 '=' characters. */
  function Bar(): (r: string)
    ensures |r| == 40 && forall i :: 0 <= i < 40 ==> r[i] == '='
  {
    seq(40, _ => '=')
  }

  /** The lines before the summary: the heading and the CALL DETAILS section. */
  function DetailLines(r: Report): seq<string> {
    ["New voicemail recording received.", "",
     Bar(), "CALL DETAILS", Bar(),
     "Store: " + r.store,
     "From: " + r.from,
     "Time: " + r.timestamp + " (" + r.timezone + ")",
     "Menu: " + r.menu,
     "Duration: " + r.duration + "s",
     "Call SID: " + r.callSid,
     "",
     Bar(), "SUMMARY", Bar()]
  }

  function TranscriptHeading(): seq<string> {
    ["", Bar(), "TRANSCRIPT", Bar()]
  }

  function RecordingLines(r: Report): seq<string> {
    ["", Bar(), "RECORDING", Bar(), r.recordingUrl]
  }

  /** The report body, line by line: it opens with the notice line and closes with the recording link. */
  function ReportBody(r: Report): (body: string)
    ensures StartsWith(body, "New voicemail recording received.\n")
    ensures EndsWith(body, r.recordingUrl + "\n")
  {
    var ls := DetailLines(r) + [r.summary] + TranscriptHeading() + [r.transcript] + RecordingLines(r);
    assert ls[0] == "New voicemail recording received." && ls[|ls| - 1] == r.recordingUrl;
    LinesFirstLast(ls);
    Lines(ls)
  }

  /** One-line values: none of the fields but the summary and the transcript holds a line break. */
  predicate OneLineFields(r: Report) {
    '\n' !in r.store && '\n' !in r.from && '\n' !in r.timestamp && '\n' !in r.timezone
    && '\n' !in r.menu && '\n' !in r.duration && '\n' !in r.callSid && '\n' !in r.recordingUrl
  }

  lemma DetailLinesOneLine(r: Report)
    requires OneLineFields(r)
    ensures forall i :: 0 <= i < |DetailLines(r)| ==> '\n' !in DetailLines(r)[i]
  {
    assert '\n' !in Bar();
  }

  lemma FixedLinesOneLine(r: Report)
    requires OneLineFields(r)
    ensures forall i :: 0 <= i < |TranscriptHeading()| ==> '\n' !in TranscriptHeading()[i]
    ensures forall i :: 0 <= i < |RecordingLines(r)| ==> '\n' !in RecordingLines(r)[i]
  {
    assert '\n' !in Bar();
  }

  /** Read line by line, the body holds the sections CALL DETAILS, SUMMARY, TRANSCRIPT and RECORDING
      in this order: the details, with the configured time zone next to the timestamp, then the lines
      of the summary, the lines of the transcript, and the recording link. */
  lemma BodySections(r: Report)
    requires OneLineFields(r)
    ensures Split(ReportBody(r), '\n') ==
      DetailLines(r) + Split(r.summary, '\n') + TranscriptHeading() + Split(r.transcript, '\n')
      + RecordingLines(r) + [""]
  {
    DetailLinesOneLine(r);
    FixedLinesOneLine(r);
    SplitLinesAround2(DetailLines(r), r.summary, TranscriptHeading(), r.transcript, RecordingLines(r));
  }

  // ---------------------------------------------------------------- the background task

  /** The arguments the recording callback hands to the background job. */
  datatype Job = Job(tenant: string, recordingUrl: string, fromNumber: Cell, callSid: Cell,
                     duration: Cell, menuSelection: Cell)

  /** How the background job ended: the configuration lookup raised, the recipients setting was not text (a
      None cell, on which `split` raises), there were no recipients (the function returns early), or
      a report was composed and dispatched. */
  datatype Processed =
    | ConfigRaised(message: string)
    | RecipientsNotText
    | NoRecipientsFound
    | Reported(recipients: seq<string>, subject: string, body: string, analysis: Analysis, delivery: Delivery)

  /** The settings value under `key`, with the code's default. */
  function Setting(config: TenantConfig, key: string, default: string): Cell {
    GetOr(config.settings, Some(key), Some(default))
  }

  /** The report for a job under a configuration, given the AI results and the timestamp. */
  function ReportOf(config: TenantConfig, job: Job, timestamp: string, a: Analysis): Report {
    Report(Str(Setting(config, "store_name", "Store")), Str(job.fromNumber), timestamp,
           Str(Setting(config, "timezone", "UTC")), Str(job.menuSelection), Str(job.duration),
           Str(job.callSid), a.summary, a.transcript, job.recordingUrl)
  }

  /** `process_recording`. Nothing is sent when the configuration raises, when the recipients setting
      is not text, or when it names no recipient; otherwise exactly one report goes to the dispatch,
      to the parsed recipients, with the subject and body composed from the configuration, the job,
      the timestamp and the results of the AI stage. */
  method ProcessRecording(cache: TtlCache<string, TenantConfig>, src: ConfigSource, env: Env, job: Job,
                          now: int, timestamp: string, transcribe: AiOutcome,
                          summarise: string -> AiOutcome, sendGrid: SendGridOutcome, logWritable: bool,
                          log: MailLog)
    returns (p: Processed)
    requires cache.Valid()
    modifies cache, log
    ensures cache.Valid()
    ensures ReadThrough(old(cache.slots), cache.slots, src, job.tenant, now, cache.ttl, cache.maxSize)
    ensures var c := ConfigAt(old(cache.slots), src, job.tenant, now);
      && (c.Raised? ==> p == ConfigRaised(c.message))
      && (c.Loaded? && Setting(c.config, "email_recipients", "").None? ==> p == RecipientsNotText)
      && (c.Loaded? && Setting(c.config, "email_recipients", "").Some? ==>
            var rs := ParseRecipients(Setting(c.config, "email_recipients", "").value);
            && (rs == [] ==> p == NoRecipientsFound)
            && (rs != [] ==>
                  && p.Reported? && p.recipients == rs
                  && p.analysis == Stages(env.openAiKey, transcribe, summarise)
                  && p.subject == ReportSubject(Str(Setting(c.config, "store_name", "Store")),
                                                Str(job.menuSelection), Str(job.fromNumber))
                  && p.body == ReportBody(ReportOf(c.config, job, timestamp, p.analysis))))
    ensures !p.Reported? ==> log.records == old(log.records)
    ensures p.Reported? ==>
      log.records == old(log.records) + Appended(env, p.recipients, p.subject, p.body, sendGrid, logWritable)
  {
    var loaded, _ := GetTenantConfig(cache, src, job.tenant, now);
    if loaded.Raised? {
      return ConfigRaised(loaded.message);
    }
    var config := loaded.config;
    var recipientsText := Setting(config, "email_recipients", "");
    if recipientsText.None? {
      return RecipientsNotText;
    }
    var recipients := ParseRecipients(recipientsText.value);
    if recipients == [] {
      return NoRecipientsFound;
    }
    var a := Analyse(env.openAiKey, transcribe, summarise);
    var store := Str(Setting(config, "store_name", "Store"));
    var subject := ReportSubject(store, Str(job.menuSelection), Str(job.fromNumber));
    var body := ReportBody(ReportOf(config, job, timestamp, a));
    var d := SendReport(log, env, recipients, subject, body, sendGrid, logWritable);
    p := Reported(recipients, subject, body, a, d);
  }
}
