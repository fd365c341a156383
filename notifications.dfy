/**
 * The notification service (src/services/notificationService.js): each
 * job is posted to Facebook and then to Telegram, every attempted post is
 * logged in the `notifications` table, and the job's status becomes
 * `notified` once both sends have returned.
 *
 * The two HTTP endpoints are one oracle from the platform and the message
 * to the reply. Database failures are an oracle too: `fault(id)` is the
 * error, if any, that every write made for job `id` raises. The time
 * stamp `new Date().toISOString()` is the parameter `now`.
 */
module Notifications {
  import opened Common
  import opened Store
  import opened Text
  import GitHubRules

  datatype Platform = Facebook | Telegram

  /** The platform's name in the `notifications` table. */
  function PlatformName(p: Platform): string
  {
    match p
    case Facebook => "facebook"
    case Telegram => "telegram"
  }

  /** A channel's two credentials (access token and group id, or bot token and chat id); `None` is `undefined`. */
  datatype Credentials = Credentials(token: Option<string>, target: Option<string>)

  predicate Present(o: Option<string>)
  {
    o.Some? && o.value != ""
  }

  /** A channel is configured when both credentials are truthy. */
  predicate Configured(c: Credentials)
  {
    Present(c.token) && Present(c.target)
  }

  /** What a platform's endpoint does with a post: returns the new post's id, or fails. */
  datatype PostReply = Posted(id: string) | PostFailed(message: string)

  /** What `sendToFacebook`/`sendToTelegram` return. */
  datatype ChannelResult = Sent(postId: string) | SendFailed(error: string) | NotConfigured
  {
    predicate Success() { Sent? }
  }

  /** A send either returns its result, with the rows it logged, or lets an exception escape. */
  datatype SendOutcome = Returned(result: ChannelResult, logs: seq<NotificationRow>) | Raised(message: string)

  /** One entry of the results of `notifyNewJobs`. */
  datatype JobResult = Notified(jobId: string, facebook: ChannelResult, telegram: ChannelResult) | NotifyError(jobId: string, error: string)

  // ---------------------------------------------------------------------------
  // The message

  /** What the bold replacement puts in place of a match whose inner text is `x`. */
  function Wrap(x: string, telegram: bool): string
  {
    if telegram then "*" + x + "*" else x
  }

  /**
   * Where the lazy `(.*?)\*\*` stops in `t`: the length of the shortest
   * run of characters other than line terminators that is followed by
   * `**`, if any.
   */
  function CloseAt(t: string): (r: Option<nat>)
    ensures r.Some? ==> r.value + 2 <= |t| && t[r.value] == '*' && t[r.value + 1] == '*'
    ensures r.Some? ==> forall k :: 0 <= k < r.value ==> !IsLineTerminator(t[k]) && !(t[k] == '*' && t[k + 1] == '*')
  {
    if |t| < 2 then None
    else if t[0] == '*' && t[1] == '*' then Some(0)
    else if IsLineTerminator(t[0]) then None
    else
      match CloseAt(t[1..])
      case None => None
      case Some(n) => Some(n + 1)
  }

  /** A `**` with no line terminator before it is found: the lazy match closes there or earlier. */
  lemma {:induction false} CloseAtComplete(t: string, n: nat)
    requires n + 2 <= |t| && t[n] == '*' && t[n + 1] == '*'
    requires forall k :: 0 <= k < n ==> !IsLineTerminator(t[k])
    ensures CloseAt(t).Some? && CloseAt(t).value <= n
  {
    if n > 0 && !(t[0] == '*' && t[1] == '*') {
      CloseAtComplete(t[1..], n - 1);
    }
  }

  /**
   * The global replacement of the pattern `\*\*(.*?)\*\*` by `*$1*` when
   * `telegram` and by `$1` otherwise: scanning from the left,
   * each `**` that has a closing `**` on the same line is replaced with
   * its wrapped inner text, and scanning resumes after the closing pair.
   */
  function ReplaceBold(s: string, telegram: bool): (r: string)
    ensures |r| <= |s|
    decreases |s|
  {
    if |s| < 2 then s
    else if s[0] == '*' && s[1] == '*' && CloseAt(s[2..]).Some? then
      var n := CloseAt(s[2..]).value;
      Wrap(s[2..2 + n], telegram) + ReplaceBold(s[n + 4..], telegram)
    else [s[0]] + ReplaceBold(s[1..], telegram)
  }

  predicate NoStar(s: string)
  {
    '*' !in s
  }

  /** No line terminator, which `.` does not match. */
  predicate OneLine(s: string)
  {
    '\n' !in s && '\r' !in s && '\U{2028}' !in s && '\U{2029}' !in s
  }

  /** Text without a star passes through the replacement unchanged. */
  lemma {:induction false} ReplaceBoldPlain(p: string, rest: string, telegram: bool)
    requires NoStar(p)
    ensures ReplaceBold(p + rest, telegram) == p + ReplaceBold(rest, telegram)
    decreases |p|
  {
    if p == [] {
      assert p + rest == rest;
    } else {
      var s := p + rest;
      assert s[0] == p[0] && s[1..] == p[1..] + rest;
      ReplaceBoldPlain(p[1..], rest, telegram);
      assert [p[0]] + (p[1..] + ReplaceBold(rest, telegram)) == p + ReplaceBold(rest, telegram);
    }
  }

  /** The lazy match closes at the first `**` after a single line of star-free text. */
  lemma {:induction false} CloseAfter(x: string, rest: string)
    requires NoStar(x) && OneLine(x)
    ensures CloseAt(x + "**" + rest) == Some(|x|)
    decreases |x|
  {
    var t := x + "**" + rest;
    if x != [] {
      assert t[0] == x[0] && t[1..] == x[1..] + "**" + rest;
      CloseAfter(x[1..], rest);
    }
  }

  /** `**x**` becomes `*x*` for Telegram and `x` otherwise, when `x` is one line without stars. */
  lemma ReplaceBoldSpan(x: string, rest: string, telegram: bool)
    requires NoStar(x) && OneLine(x)
    ensures ReplaceBold("**" + x + "**" + rest, telegram) == Wrap(x, telegram) + ReplaceBold(rest, telegram)
  {
    var s := "**" + x + "**" + rest;
    assert s[2..] == x + "**" + rest;
    CloseAfter(x, rest);
    assert s[2..2 + |x|] == x;
    assert s[|x| + 4..] == rest;
  }

  /** `job.analysis || 'Analysis pending...'`. */
  function AnalysisText(job: JobRow): (a: string)
    ensures Present(job.analysis) ==> a == job.analysis.value
    ensures !Present(job.analysis) ==> a == "Analysis pending..."
  {
    if Present(job.analysis) then job.analysis.value else "Analysis pending..."
  }

  const AlertTitle := "New High-Value Job Alert!"
  const AnalysisLabel := "Analysis:"

  /** The text after the title: the budget line, the analysis heading, the analysis and the link. */
  function Body(job: JobRow, heading: string): string
  {
    BodyHead(job) + heading + BodyTail(job)
  }

  /** The trimmed template of `formatJobMessage`, before the bold markers are converted. */
  function BaseMessage(job: JobRow): string
  {
    "🔥 " + ("**" + AlertTitle + "**" + ("\n\n" + ("**" + job.title + "**" + Body(job, "**" + AnalysisLabel + "**"))))
  }

  /** `formatJobMessage(job, platform)`. */
  function FormatJobMessage(job: JobRow, p: Platform): (m: string)
    ensures |m| <= |BaseMessage(job)|
  {
    ReplaceBold(BaseMessage(job), p == Telegram)
  }

  /** A grouped amount holds no star. */
  lemma {:induction false} GroupDigitsNoStar(ds: string)
    requires NoStar(ds)
    ensures NoStar(GitHubRules.GroupDigits(ds))
    decreases |ds|
  {
    if |ds| > 3 {
      GroupDigitsNoStar(ds[..|ds| - 3]);
    }
  }

  lemma LocaleStringNoStar(n: int)
    ensures NoStar(GitHubRules.LocaleString(n))
  {
    var ds := NatToString(if n < 0 then -n else n);
    assert forall k :: 0 <= k < |ds| ==> ds[k] != '*' by {
      forall k | 0 <= k < |ds| ensures ds[k] != '*' { assert IsDigit(ds[k]); }
    }
    GroupDigitsNoStar(ds);
  }

  /** The fixed texts of the template hold no star, and the bold ones no line break. */
  lemma TemplatePlain()
    ensures NoStar(AlertTitle) && OneLine(AlertTitle) && NoStar(AnalysisLabel) && OneLine(AnalysisLabel)
    ensures NoStar("🔥 ") && NoStar("\n\n")
  {
    assert NoStar(AlertTitle) by { TitleNoStar(); }
    assert OneLine(AlertTitle) by { TitleOneLine(); }
    assert NoStar(AnalysisLabel) && OneLine(AnalysisLabel) by { LabelPlain(); }
  }

  lemma TitleNoStar() ensures NoStar(AlertTitle) {}
  lemma TitleOneLine() ensures OneLine(AlertTitle) {}
  lemma LabelPlain() ensures NoStar(AnalysisLabel) && OneLine(AnalysisLabel) {}

  /** The text of `Body` before its heading. */
  function BodyHead(job: JobRow): string
  {
    "\n💰 Budget: " + GitHubRules.LocaleString(job.budget) + " THB\n\n📋 "
  }

  /** The text of `Body` after its heading. */
  function BodyTail(job: JobRow): string
  {
    "\n" + AnalysisText(job) + "\n\n🔗 View full details: " + job.url + "\n\n#FastworkJobs #Freelance #HighBudget"
  }

  lemma BodyPlain(job: JobRow)
    requires NoStar(AnalysisText(job)) && NoStar(job.url)
    ensures NoStar(BodyHead(job)) && NoStar(BodyTail(job))
  {
    var amount := GitHubRules.LocaleString(job.budget);
    LocaleStringNoStar(job.budget);
    PiecesPlain();
    NoStarJoin("\n💰 Budget: ", amount);
    NoStarJoin("\n💰 Budget: " + amount, " THB\n\n📋 ");
    var analysis := AnalysisText(job);
    NoStarJoin("\n", analysis);
    NoStarJoin("\n" + analysis, "\n\n🔗 View full details: ");
    NoStarJoin("\n" + analysis + "\n\n🔗 View full details: ", job.url);
    NoStarJoin("\n" + analysis + "\n\n🔗 View full details: " + job.url, "\n\n#FastworkJobs #Freelance #HighBudget");
  }

  /** The fixed pieces of the body hold no star. */
  lemma PiecesPlain()
    ensures NoStar("\n💰 Budget: ") && NoStar(" THB\n\n📋 ") && NoStar("\n")
    ensures NoStar("\n\n🔗 View full details: ") && NoStar("\n\n#FastworkJobs #Freelance #HighBudget")
  {
  }

  lemma NoStarJoin(a: string, b: string)
    requires NoStar(a) && NoStar(b)
    ensures NoStar(a + b)
  {
  }

  /** The part after the title loses or keeps its one bold span like the rest. */
  lemma BodyBold(job: JobRow, t: bool)
    requires NoStar(AnalysisText(job)) && NoStar(job.url)
    ensures ReplaceBold(Body(job, "**" + AnalysisLabel + "**"), t) == Body(job, Wrap(AnalysisLabel, t))
  {
    TemplatePlain();
    BodyPlain(job);
    var head, tail := BodyHead(job), BodyTail(job);
    BodySplit(job, "**" + AnalysisLabel + "**");
    BodySplit(job, Wrap(AnalysisLabel, t));
    assert "**" + AnalysisLabel + "**" + tail == ("**" + AnalysisLabel + "**") + tail;
    SpanBetweenPlain(head, AnalysisLabel, tail, t);
  }

  /** The body is its head, its heading and its tail. */
  lemma BodySplit(job: JobRow, heading: string)
    ensures Body(job, heading) == BodyHead(job) + (heading + BodyTail(job))
  {
  }

  /** Star-free text around a one-line star-free span. */
  predicate PlainAround(head: string, x: string, tail: string)
  {
    NoStar(head) && NoStar(x) && OneLine(x) && NoStar(tail)
  }

  /** One bold span between two star-free texts is the only thing the replacement changes. */
  lemma SpanBetweenPlain(head: string, x: string, tail: string, t: bool)
    requires PlainAround(head, x, tail)
    ensures ReplaceBold(head + ("**" + x + "**" + tail), t) == head + (Wrap(x, t) + tail)
  {
    ReplaceBoldPlain(head, "**" + x + "**" + tail, t);
    ReplaceBoldSpan(x, tail, t);
    ReplaceBoldPlain(tail, "", t);
    assert tail + "" == tail;
  }

  /**
   * With a one-line title and an analysis and link free of stars, the
   * message keeps its three bold spans as `*...*` for Telegram and drops
   * their markers for Facebook.
   */
  lemma MessageBold(job: JobRow, p: Platform)
    requires NoStar(job.title) && OneLine(job.title) && NoStar(AnalysisText(job)) && NoStar(job.url)
    ensures FormatJobMessage(job, p)
         == "🔥 " + (Wrap(AlertTitle, p == Telegram) + ("\n\n" + (Wrap(job.title, p == Telegram)
            + Body(job, Wrap(AnalysisLabel, p == Telegram)))))
  {
    var t := p == Telegram;
    var body := Body(job, "**" + AnalysisLabel + "**");
    var third := "**" + job.title + "**" + body;
    var second := "\n\n" + third;
    var first := "**" + AlertTitle + "**" + second;
    assert BaseMessage(job) == "🔥 " + first;
    TemplatePlain();
    ReplaceBoldPlain("🔥 ", first, t);
    ReplaceBoldSpan(AlertTitle, second, t);
    ReplaceBoldPlain("\n\n", third, t);
    ReplaceBoldSpan(job.title, body, t);
    BodyBold(job, t);
  }

  // ---------------------------------------------------------------------------
  // Sending and logging

  /** The row `logNotification` inserts: `sent_at` is the time only for a `sent` status. */
  function LogRow(jobId: string, p: Platform, status: string, errorMessage: Option<string>, now: string): (r: NotificationRow)
    ensures r.jobId == jobId && r.platform == PlatformName(p) && r.status == status && r.errorMessage == errorMessage
    ensures r.sentAt.Some? <==> status == "sent"
    ensures r.sentAt.Some? ==> r.sentAt.value == now
  {
    NotificationRow(jobId, PlatformName(p), status, if status == "sent" then Some(now) else None, errorMessage)
  }

  /**
   * One send as a value. An unconfigured channel returns at once without
   * a request or a log row; otherwise the message is posted and the
   * outcome logged, and a failing log write escapes as an exception (the
   * `sent` log fails into the catch, whose `failed` log fails again).
   */
  function SendResult(c: Credentials, p: Platform, post: (Platform, string) -> PostReply, job: JobRow,
                      fault: Option<string>, now: string): (r: SendOutcome)
    ensures !Configured(c) ==> r == Returned(NotConfigured, [])
    ensures r.Raised? <==> Configured(c) && fault.Some?
    ensures r.Raised? ==> r.message == fault.value
  {
    if !Configured(c) then Returned(NotConfigured, [])
    else
      match post(p, FormatJobMessage(job, p))
      case Posted(id) =>
        if fault.Some? then Raised(fault.value) else Returned(Sent(id), [LogRow(job.id, p, "sent", None, now)])
      case PostFailed(e) =>
        if fault.Some? then Raised(fault.value) else Returned(SendFailed(e), [LogRow(job.id, p, "failed", Some(e), now)])
  }

  /** A configured channel that returns logs one row for the job, `sent` exactly when the post went through. */
  lemma SendResultLogs(c: Credentials, p: Platform, post: (Platform, string) -> PostReply, job: JobRow,
                       fault: Option<string>, now: string)
    requires Configured(c)
    ensures var r := SendResult(c, p, post, job, fault, now);
      r.Returned? ==>
        && |r.logs| == 1 && r.logs[0].jobId == job.id && r.logs[0].platform == PlatformName(p)
        && (r.logs[0].status == "sent" <==> r.result.Sent?)
        && (r.result.Sent? <==> post(p, FormatJobMessage(job, p)).Posted?)
  {
  }

  /** What one job of `notifyNewJobs` produces: its result entries, its log rows, and whether it was marked notified. */
  datatype Notice = Notice(entries: seq<JobResult>, logs: seq<NotificationRow>, notified: bool)

  /**
   * One job of the loop: Facebook, then Telegram; the entry with both
   * results is pushed before the status update, so a failing status
   * update adds a second, error entry.
   */
  function NoticeOf(fb: Credentials, tg: Credentials, post: (Platform, string) -> PostReply, job: JobRow,
                    fault: Option<string>, now: string): (n: Notice)
    ensures n.notified <==> fault.None?
    ensures n.entries != [] && forall e :: e in n.entries ==> e.jobId == job.id
  {
    var f := SendResult(fb, Facebook, post, job, fault, now);
    if f.Raised? then Notice([NotifyError(job.id, f.message)], [], false)
    else
      var t := SendResult(tg, Telegram, post, job, fault, now);
      if t.Raised? then Notice([NotifyError(job.id, t.message)], f.logs, false)
      else if fault.Some? then Notice([Notified(job.id, f.result, t.result), NotifyError(job.id, fault.value)], f.logs + t.logs, false)
      else Notice([Notified(job.id, f.result, t.result)], f.logs + t.logs, true)
  }

  /**
   * A job is marked notified exactly when both sends return, whatever
   * they report; then it has a single entry carrying both results. When
   * an exception escapes, the last entry is the error and the status is
   * left alone.
   */
  lemma NoticeOutcomes(fb: Credentials, tg: Credentials, post: (Platform, string) -> PostReply, job: JobRow,
                       fault: Option<string>, now: string)
    ensures var n := NoticeOf(fb, tg, post, job, fault, now);
      && (n.notified <==> fault.None?)
      && (fault.None? ==> n.entries == [Notified(job.id, SendResult(fb, Facebook, post, job, fault, now).result,
                                                         SendResult(tg, Telegram, post, job, fault, now).result)])
      && (fault.Some? ==> n.entries != [] && n.entries[|n.entries| - 1] == NotifyError(job.id, fault.value))
      && (forall e :: e in n.entries ==> e.jobId == job.id)
  {
  }

  /** With neither channel configured, a job is still marked notified, with no request and no log row. */
  lemma UnconfiguredStillNotified(fb: Credentials, tg: Credentials, post: (Platform, string) -> PostReply, job: JobRow, now: string)
    requires !Configured(fb) && !Configured(tg)
    ensures NoticeOf(fb, tg, post, job, None, now) == Notice([Notified(job.id, NotConfigured, NotConfigured)], [], true)
  {
  }

  /** With neither channel configured, a failing status update gives the job two entries. */
  lemma FailedStatusUpdateTwoEntries(fb: Credentials, tg: Credentials, post: (Platform, string) -> PostReply, job: JobRow,
                                     m: string, now: string)
    requires !Configured(fb) && !Configured(tg)
    ensures NoticeOf(fb, tg, post, job, Some(m), now).entries
         == [Notified(job.id, NotConfigured, NotConfigured), NotifyError(job.id, m)]
  {
  }

  /** The results of the loop over `jobs`. */
  function AllEntries(fb: Credentials, tg: Credentials, post: (Platform, string) -> PostReply, jobs: seq<JobRow>,
                      fault: string -> Option<string>, now: string): seq<JobResult>
  {
    if jobs == [] then []
    else
      var last := jobs[|jobs| - 1];
      AllEntries(fb, tg, post, jobs[..|jobs| - 1], fault, now) + NoticeOf(fb, tg, post, last, fault(last.id), now).entries
  }

  /** The notifications table after the loop over `jobs`, starting from `logs`. */
  function AllLogs(logs: seq<NotificationRow>, fb: Credentials, tg: Credentials, post: (Platform, string) -> PostReply,
                   jobs: seq<JobRow>, fault: string -> Option<string>, now: string): seq<NotificationRow>
  {
    if jobs == [] then logs
    else
      var last := jobs[|jobs| - 1];
      AllLogs(logs, fb, tg, post, jobs[..|jobs| - 1], fault, now) + NoticeOf(fb, tg, post, last, fault(last.id), now).logs
  }

  /** The jobs table after the loop over `jobs`. */
  function NotifiedRows(rows: seq<JobRow>, fb: Credentials, tg: Credentials, post: (Platform, string) -> PostReply,
                        jobs: seq<JobRow>, fault: string -> Option<string>, now: string): seq<JobRow>
  {
    if jobs == [] then rows
    else
      var last := jobs[|jobs| - 1];
      var before := NotifiedRows(rows, fb, tg, post, jobs[..|jobs| - 1], fault, now);
      if NoticeOf(fb, tg, post, last, fault(last.id), now).notified then UpdateWhere(before, last.id, SetStatus("notified"))
      else before
  }

  /** The loop functions over the first `i + 1` jobs, in terms of those over the first `i`. */
  lemma LoopStep(rows: seq<JobRow>, logs: seq<NotificationRow>, fb: Credentials, tg: Credentials, post: (Platform, string) -> PostReply,
                 jobs: seq<JobRow>, i: nat, fault: string -> Option<string>, now: string)
    requires i < |jobs|
    ensures var n := NoticeOf(fb, tg, post, jobs[i], fault(jobs[i].id), now);
      && AllEntries(fb, tg, post, jobs[..i + 1], fault, now) == AllEntries(fb, tg, post, jobs[..i], fault, now) + n.entries
      && AllLogs(logs, fb, tg, post, jobs[..i + 1], fault, now) == AllLogs(logs, fb, tg, post, jobs[..i], fault, now) + n.logs
      && NotifiedRows(rows, fb, tg, post, jobs[..i + 1], fault, now)
         == (var before := NotifiedRows(rows, fb, tg, post, jobs[..i], fault, now);
             if n.notified then UpdateWhere(before, jobs[i].id, SetStatus("notified")) else before)
  {
    assert jobs[..i + 1][..i] == jobs[..i] && jobs[..i + 1][i] == jobs[i];
  }

  /** When no write fails, there is exactly one entry per job, in the order of the jobs. */
  lemma {:induction false} OneEntryPerJob(fb: Credentials, tg: Credentials, post: (Platform, string) -> PostReply,
                                          jobs: seq<JobRow>, fault: string -> Option<string>, now: string)
    requires forall k :: 0 <= k < |jobs| ==> fault(jobs[k].id).None?
    ensures var r := AllEntries(fb, tg, post, jobs, fault, now);
      |r| == |jobs| && forall k :: 0 <= k < |jobs| ==> r[k].Notified? && r[k].jobId == jobs[k].id
  {
    if jobs != [] {
      var init := jobs[..|jobs| - 1];
      OneEntryPerJob(fb, tg, post, init, fault, now);
      NoticeOutcomes(fb, tg, post, jobs[|jobs| - 1], fault(jobs[|jobs| - 1].id), now);
    }
  }

  /** The ids of `jobs`. */
  function IdsOf(jobs: seq<JobRow>): set<string>
  {
    if jobs == [] then {} else IdsOf(jobs[..|jobs| - 1]) + {jobs[|jobs| - 1].id}
  }

  /** An id is in `IdsOf(jobs)` exactly when some job carries it. */
  lemma {:induction false} IdsOfMembers(jobs: seq<JobRow>, x: string)
    ensures x in IdsOf(jobs) <==> exists k :: 0 <= k < |jobs| && jobs[k].id == x
  {
    if jobs != [] {
      var init := jobs[..|jobs| - 1];
      IdsOfMembers(init, x);
      if x in IdsOf(init) {
        var k :| 0 <= k < |init| && init[k].id == x;
        assert jobs[k] == init[k];
      }
      if exists k :: 0 <= k < |jobs| && jobs[k].id == x {
        var k :| 0 <= k < |jobs| && jobs[k].id == x;
        if k < |init| {
          assert init[k] == jobs[k];
        }
      }
    }
  }

  /** A job whose status write does not fail is marked notified, on top of the table the earlier jobs left. */
  lemma NotifiedRowsStep(rows: seq<JobRow>, fb: Credentials, tg: Credentials, post: (Platform, string) -> PostReply,
                         jobs: seq<JobRow>, fault: string -> Option<string>, now: string)
    requires jobs != [] && fault(jobs[|jobs| - 1].id).None?
    ensures NotifiedRows(rows, fb, tg, post, jobs, fault, now)
         == UpdateWhere(NotifiedRows(rows, fb, tg, post, jobs[..|jobs| - 1], fault, now), jobs[|jobs| - 1].id, SetStatus("notified"))
  {
    var last := jobs[|jobs| - 1];
    NoticeOutcomes(fb, tg, post, last, fault(last.id), now);
  }

  /** Marking one more id notified extends the set of rows that read `notified`. */
  lemma MarkOneMore(rows: seq<JobRow>, before: seq<JobRow>, ids: set<string>, id: string)
    requires |before| == |rows|
    requires forall i :: 0 <= i < |rows| ==> before[i] == if rows[i].id in ids then rows[i].(status := "notified") else rows[i]
    ensures var after := UpdateWhere(before, id, SetStatus("notified"));
      && |after| == |rows|
      && forall i :: 0 <= i < |rows| ==> after[i] == if rows[i].id in ids + {id} then rows[i].(status := "notified") else rows[i]
  {
    var after := UpdateWhere(before, id, SetStatus("notified"));
    forall i | 0 <= i < |rows|
      ensures after[i] == if rows[i].id in ids + {id} then rows[i].(status := "notified") else rows[i]
    {
      assert before[i].id == rows[i].id;
    }
  }

  /** When no write fails, every row holding one of the jobs' ids ends up `notified`; the other rows are unchanged. */
  lemma {:induction false} AllNotified(rows: seq<JobRow>, fb: Credentials, tg: Credentials, post: (Platform, string) -> PostReply,
                                       jobs: seq<JobRow>, fault: string -> Option<string>, now: string)
    requires forall k :: 0 <= k < |jobs| ==> fault(jobs[k].id).None?
    ensures var after := NotifiedRows(rows, fb, tg, post, jobs, fault, now);
      && |after| == |rows|
      && forall i :: 0 <= i < |rows| ==> after[i] == if rows[i].id in IdsOf(jobs) then rows[i].(status := "notified") else rows[i]
  {
    if jobs != [] {
      var init := jobs[..|jobs| - 1];
      var last := jobs[|jobs| - 1];
      AllNotified(rows, fb, tg, post, init, fault, now);
      NotifiedRowsStep(rows, fb, tg, post, jobs, fault, now);
      MarkOneMore(rows, NotifiedRows(rows, fb, tg, post, init, fault, now), IdsOf(init), last.id);
    }
  }

  // ---------------------------------------------------------------------------
  // The service

  class NotificationService {
    const facebook: Credentials
    const telegram: Credentials

    constructor (facebook: Credentials, telegram: Credentials)
      ensures this.facebook == facebook && this.telegram == telegram
    {
      this.facebook := facebook;
      this.telegram := telegram;
    }

    function CredentialsOf(p: Platform): Credentials
    {
      match p
      case Facebook => facebook
      case Telegram => telegram
    }

    /** `logNotification`: inserts the row, or raises the database's error. */
    method LogNotification(db: Database, jobId: string, p: Platform, status: string, errorMessage: Option<string>,
                           fault: Option<string>, now: string) returns (raised: Option<string>)
      modifies db
      ensures db.jobs == old(db.jobs)
      ensures raised == fault
      ensures fault.Some? ==> db.notifications == old(db.notifications)
      ensures fault.None? ==> db.notifications == old(db.notifications) + [LogRow(jobId, p, status, errorMessage, now)]
    {
      if fault.Some? {
        return fault;
      }
      db.InsertNotification(LogRow(jobId, p, status, errorMessage, now));
      raised := None;
    }

    /** `sendToFacebook` and `sendToTelegram`, which differ only in their channel. */
    method Send(db: Database, p: Platform, post: (Platform, string) -> PostReply, job: JobRow, fault: Option<string>, now: string)
        returns (out: SendOutcome)
      modifies db
      ensures out == SendResult(CredentialsOf(p), p, post, job, fault, now)
      ensures db.jobs == old(db.jobs)
      ensures db.notifications == old(db.notifications) + (if out.Returned? then out.logs else [])
    {
      if !Configured(CredentialsOf(p)) {
        return Returned(NotConfigured, []);
      }
      var reply := post(p, FormatJobMessage(job, p));
      var raised;
      if reply.Posted? {
        raised := LogNotification(db, job.id, p, "sent", None, fault, now);
        if raised.None? {
          return Returned(Sent(reply.id), [LogRow(job.id, p, "sent", None, now)]);
        }
        // the catch block logs the failure, which raises again
        raised := LogNotification(db, job.id, p, "failed", raised, fault, now);
        return Raised(raised.value);
      }
      raised := LogNotification(db, job.id, p, "failed", Some(reply.message), fault, now);
      if raised.Some? {
        return Raised(raised.value);
      }
      out := Returned(SendFailed(reply.message), [LogRow(job.id, p, "failed", Some(reply.message), now)]);
    }

    /** `updateJobStatus`: the update by id, or the database's error. */
    method UpdateJobStatus(db: Database, jobId: string, status: string, fault: Option<string>) returns (raised: Option<string>)
      requires db.Valid()
      modifies db
      ensures db.Valid() && db.notifications == old(db.notifications)
      ensures raised == fault
      ensures fault.Some? ==> db.jobs == old(db.jobs)
      ensures fault.None? ==> db.jobs == UpdateWhere(old(db.jobs), jobId, SetStatus(status))
    {
      if fault.Some? {
        return fault;
      }
      var _ := db.Update(jobId, SetStatus(status));
      raised := None;
    }

    /** The body of the loop of `notifyNewJobs` for one job, with its `try`/`catch`. */
    method NotifyOne(db: Database, post: (Platform, string) -> PostReply, job: JobRow, fault: Option<string>, now: string)
        returns (entries: seq<JobResult>)
      requires db.Valid()
      modifies db
      ensures db.Valid()
      ensures var n := NoticeOf(facebook, telegram, post, job, fault, now);
        && entries == n.entries
        && db.notifications == old(db.notifications) + n.logs
        && db.jobs == if n.notified then UpdateWhere(old(db.jobs), job.id, SetStatus("notified")) else old(db.jobs)
    {
      var f := Send(db, Facebook, post, job, fault, now);
      if f.Raised? {
        return [NotifyError(job.id, f.message)];
      }
      var t := Send(db, Telegram, post, job, fault, now);
      if t.Raised? {
        return [NotifyError(job.id, t.message)];
      }
      entries := [Notified(job.id, f.result, t.result)];
      var raised := UpdateJobStatus(db, job.id, "notified", fault);
      if raised.Some? {
        entries := entries + [NotifyError(job.id, raised.value)];
      }
    }

    /** One pass of the loop of `notifyNewJobs`, on the job at `i`. */
    method NotifyNext(db: Database, post: (Platform, string) -> PostReply, jobs: seq<JobRow>, i: nat,
                      fault: string -> Option<string>, now: string,
                      ghost rows: seq<JobRow>, ghost logs: seq<NotificationRow>, ghost results: seq<JobResult>)
        returns (entries: seq<JobResult>)
      requires db.Valid() && i < |jobs|
      requires results == AllEntries(facebook, telegram, post, jobs[..i], fault, now)
      requires db.notifications == AllLogs(logs, facebook, telegram, post, jobs[..i], fault, now)
      requires db.jobs == NotifiedRows(rows, facebook, telegram, post, jobs[..i], fault, now)
      modifies db
      ensures db.Valid()
      ensures results + entries == AllEntries(facebook, telegram, post, jobs[..i + 1], fault, now)
      ensures db.notifications == AllLogs(logs, facebook, telegram, post, jobs[..i + 1], fault, now)
      ensures db.jobs == NotifiedRows(rows, facebook, telegram, post, jobs[..i + 1], fault, now)
    {
      LoopStep(rows, logs, facebook, telegram, post, jobs, i, fault, now);
      entries := NotifyOne(db, post, jobs[i], fault(jobs[i].id), now);
    }

    /** `notifyNewJobs`: the jobs in order, each inside its own `try`. */
    method NotifyNewJobs(db: Database, post: (Platform, string) -> PostReply, jobs: seq<JobRow>,
                         fault: string -> Option<string>, now: string) returns (results: seq<JobResult>)
      requires db.Valid()
      modifies db
      ensures db.Valid()
      ensures results == AllEntries(facebook, telegram, post, jobs, fault, now)
      ensures db.notifications == AllLogs(old(db.notifications), facebook, telegram, post, jobs, fault, now)
      ensures db.jobs == NotifiedRows(old(db.jobs), facebook, telegram, post, jobs, fault, now)
    {
      results := [];
      ghost var rows := db.jobs;
      ghost var logs := db.notifications;
      var i := 0;
      while i < |jobs|
        invariant i <= |jobs| && db.Valid()
        invariant results == AllEntries(facebook, telegram, post, jobs[..i], fault, now)
        invariant db.notifications == AllLogs(logs, facebook, telegram, post, jobs[..i], fault, now)
        invariant db.jobs == NotifiedRows(rows, facebook, telegram, post, jobs[..i], fault, now)
      {
        var entries := NotifyNext(db, post, jobs, i, fault, now, rows, logs, results);
        results := results + entries;
        i := i + 1;
      }
      assert jobs[..i] == jobs;
    }
  }
}
