/**
 * `LinkedInPoster`: the choice between the API and the manual hand-off, the
 * single publishing attempt with its fallback, and the confirmed run that
 * appends a record to `post-history.json`.
 *
 * The network reply, the confirmation typed by the user, today's date and
 * the files read at start-up are parameters; what the poster does to the
 * outside world is kept as a trace of effects.
 */
module Poster {
  import opened Wrappers
  import opened Text
  import opened Collections
  import opened Credentials
  import opened IssueStats
  import opened CustomPost
  import opened Http

  /** A post text: one given verbatim, or one of the two summaries built from the statistics. */
  datatype Post =
    | Literal(text: string)
    | LinkedInSummary(stats: WeeklyStats, focus: seq<Entry>)
    | TwitterSummary(stats: WeeklyStats)

  /** The JSON answer of `ugcPosts`: only its `id` is read, to be printed. */
  datatype Created = Created(id: Option<string>)

  /** What the poster does outside itself: a `POST` to the API, or the clipboard-and-browser hand-off of `manualPost`. */
  datatype Effect =
    | ApiPublish(author: string, bearer: string, text: Post)
    | ManualHandoff(text: Post)

  /** The post's `author` field. */
  function AuthorUrn(c: Config): string
  {
    "urn:li:person:" + c.personId
  }

  /** The requests in a trace. */
  function ApiCalls(effects: seq<Effect>): nat
  {
    if effects == [] then 0 else (if effects[0].ApiPublish? then 1 else 0) + ApiCalls(effects[1..])
  }

  /** The hand-offs in a trace. */
  function Handoffs(effects: seq<Effect>): nat
  {
    if effects == [] then 0 else (if effects[0].ManualHandoff? then 1 else 0) + Handoffs(effects[1..])
  }

  /**
   * What `postToLinkedIn` does: without a credential, only the hand-off; with
   * one, exactly one request, followed by the hand-off unless it was published.
   */
  function Publish(config: Option<Config>, content: Post, reply: Reply<Created>): (effects: seq<Effect>)
    ensures config.None? ==> effects == [ManualHandoff(content)]
    ensures config.Some? ==> |effects| >= 1
    ensures config.Some? ==> effects[0] == ApiPublish(AuthorUrn(config.value), config.value.accessToken, content)
    ensures config.Some? && Answered(reply) ==> |effects| == 1
    ensures config.Some? && !Answered(reply) ==> |effects| == 2 && effects[1] == ManualHandoff(content)
  {
    match config
    case None => [ManualHandoff(content)]
    case Some(c) =>
      var request := ApiPublish(AuthorUrn(c), c.accessToken, content);
      if Answered(reply) then [request] else [request, ManualHandoff(content)]
  }

  /**
   * Whatever the reply: one request with a credential and none without, and
   * the hand-off exactly when there was no credential or the request failed.
   */
  lemma {:induction false} OneAttemptAtMostOneFallback(config: Option<Config>, content: Post, reply: Reply<Created>)
    ensures ApiCalls(Publish(config, content, reply)) == (if config.Some? then 1 else 0)
    ensures Handoffs(Publish(config, content, reply)) == (if config.Some? && Answered(reply) then 0 else 1)
  {
    var e := Publish(config, content, reply);
    if |e| == 2 {
      assert e[1..][1..] == [];
      assert ApiCalls(e[1..]) == 0 && Handoffs(e[1..]) == 1;
    } else {
      assert e[1..] == [];
      assert ApiCalls(e[1..]) == 0 && Handoffs(e[1..]) == 0;
    }
  }

  /** `record.type`. */
  datatype PostKind = Custom | IssuesSummary

  /** `record.posted`: the literal `true`, or the string `'manual'`. */
  datatype Posted = PostedTrue | PostedManual

  /** `record.method`. */
  datatype Method = Api | Manual

  /** One entry of `post-history.json`. */
  datatype PostRecord = PostRecord(
    date: string,
    kind: PostKind,
    stats: Option<WeeklyStats>,
    linkedinPost: Post,
    twitterPost: Post,
    posted: Posted,
    via: Method)

  /** `post-history.json`: absent, not a JSON array, or the records so far. */
  datatype HistoryFile = NoFile | Corrupt | Records(records: seq<PostRecord>)

  /** How a run ends: nothing written, a record appended, or the error exit when the history could not be read. */
  datatype RunOutcome = NotRecorded | Recorded(record: PostRecord) | Crashed

  /** `!!customContent`: custom content counts only when it is a non-empty string. */
  predicate IsCustom(customContent: Option<string>)
  {
    customContent.Some? && customContent.value != ""
  }

  /** `answer.toLowerCase() === 'y'`. */
  predicate Confirmed(answer: string)
  {
    ToLower(answer) == "y"
  }

  /** Only a lone `y` or `Y` confirms. */
  lemma ConfirmedExactly(answer: string)
    ensures Confirmed(answer) <==> answer == "y" || answer == "Y"
  {
    if Confirmed(answer) {
      assert |answer| == 1;
      assert answer == [answer[0]];
    }
  }

  /** The two posts a run shows, and the statistics behind them. */
  datatype Draft = Draft(kind: PostKind, stats: Option<WeeklyStats>, linkedinPost: Post, twitterPost: Post)

  /** The drafts of `run`: the custom text and its short version, or the two summaries of this week's statistics. */
  function DraftFor(customContent: Option<string>, issues: seq<Issue>): (d: Draft)
    ensures d.kind == Custom <==> IsCustom(customContent)
    ensures d.kind == Custom ==> d.stats.None? && d.linkedinPost == Literal(customContent.value)
    ensures d.kind == Custom ==> d.twitterPost == Literal(TwitterFromCustom(customContent.value))
    ensures d.kind == IssuesSummary ==> d.stats == Some(StatsOf(issues))
    ensures d.kind == IssuesSummary ==>
      d.linkedinPost == LinkedInSummary(StatsOf(issues), FocusAreas(StatsOf(issues).categories))
    ensures d.kind == IssuesSummary ==> d.twitterPost == TwitterSummary(StatsOf(issues))
  {
    if IsCustom(customContent) then
      Draft(Custom, None, Literal(customContent.value), Literal(TwitterFromCustom(customContent.value)))
    else
      var stats := StatsOf(issues);
      Draft(IssuesSummary, Some(stats), LinkedInSummary(stats, FocusAreas(stats.categories)), TwitterSummary(stats))
  }

  /** The record saved after a confirmed post; `posted` and `method` follow the mode fixed at start-up. */
  function RecordFor(d: Draft, today: string, manualMode: bool): (r: PostRecord)
    ensures r.via == Api <==> !manualMode
    ensures r.posted == PostedTrue <==> !manualMode
    ensures r.kind == d.kind && r.stats == d.stats && r.date == today
    ensures r.linkedinPost == d.linkedinPost && r.twitterPost == d.twitterPost
  {
    PostRecord(
      today, d.kind, d.stats, d.linkedinPost, d.twitterPost,
      if manualMode then PostedManual else PostedTrue,
      if manualMode then Manual else Api)
  }

  /** The history after `push` and the rewrite, or nothing when the file could not be read. */
  function Appended(file: HistoryFile, record: PostRecord): (r: Option<HistoryFile>)
    ensures r.None? <==> file.Corrupt?
    ensures r.Some? ==> r.value.Records?
    ensures file.NoFile? ==> r == Some(Records([record]))
    ensures file.Records? ==> r.Some? && |r.value.records| == |file.records| + 1
    ensures file.Records? ==> r.value.records[..|file.records|] == file.records
    ensures file.Records? ==> r.value.records[|file.records|] == record
  {
    match file
    case NoFile => Some(Records([record]))
    case Corrupt => None
    case Records(rs) => Some(Records(rs + [record]))
  }

  class LinkedInPoster {
    /** The credential `loadConfig` found at start-up, if any. */
    const config: Option<Config>
    /** Fixed once, at start-up: no credential, no API. */
    const manualMode: bool
    /** `issues_data/latest_issues.json`. */
    const issues: seq<Issue>
    /** `post-history.json` as it stands on disk. */
    var history: HistoryFile
    /** Everything the poster has done outside itself, in order. */
    var effects: seq<Effect>

    predicate Valid()
    {
      manualMode <==> config.None?
    }

    /** The constructor: the credential is checked once, and the mode follows from it. */
    constructor(file: ConfigFile, now: int, issuesData: seq<Issue>, historyFile: HistoryFile)
      ensures Valid()
      ensures config == LoadConfig(file, now)
      ensures manualMode <==> Classify(file, now) != Usable
      ensures issues == issuesData && history == historyFile && effects == []
    {
      config := LoadConfig(file, now);
      manualMode := LoadConfig(file, now).None?;
      issues := issuesData;
      history := historyFile;
      effects := [];
    }

    /** `manualPost`: the clipboard copy and the browser are best effort; the hand-off always succeeds. */
    method ManualPost(content: Post) returns (success: bool)
      modifies this
      ensures success
      ensures effects == old(effects) + [ManualHandoff(content)]
      ensures history == old(history)
    {
      effects := effects + [ManualHandoff(content)];
      success := true;
    }

    /** `postToLinkedIn`: the hand-off in manual mode; otherwise one request, and the hand-off if it failed. */
    method PostToLinkedIn(content: Post, reply: Reply<Created>) returns (success: bool)
      requires Valid()
      modifies this
      ensures success
      ensures effects == old(effects) + Publish(config, content, reply)
      ensures history == old(history)
    {
      if manualMode {
        success := ManualPost(content);
        return;
      }
      var c := config.value;
      effects := effects + [ApiPublish(AuthorUrn(c), c.accessToken, content)];
      match reply
      case NetworkError =>
        success := ManualPost(content);
      case Replied(status, body) =>
        if Ok(status) {
          if body.Json? {
            success := true;
          } else {
            // `response.json()` or `result.id` throws inside the same `try`: the catch falls back as for a network error.
            success := ManualPost(content);
          }
        } else {
          success := ManualPost(content);
        }
    }

    /** The first half of `run`: the custom text and its short version, or the weekly statistics and their two summaries. */
    method Drafts(customContent: Option<string>) returns (d: Draft)
      ensures d == DraftFor(customContent, issues)
    {
      var isCustom := IsCustom(customContent);
      if isCustom {
        d := Draft(Custom, None, Literal(customContent.value), Literal(TwitterFromCustom(customContent.value)));
      } else {
        var stats := GenerateWeeklyStats(issues);
        d := Draft(IssuesSummary, Some(stats), LinkedInSummary(stats, FocusAreas(stats.categories)), TwitterSummary(stats));
      }
    }

    /** The record keeping of `run`: read the history, `push`, write it back; an unreadable file ends the run. */
    method SaveRecord(record: PostRecord) returns (outcome: RunOutcome)
      modifies this
      ensures old(history).Corrupt? ==> outcome == Crashed && history == old(history)
      ensures !old(history).Corrupt? ==> outcome == Recorded(record) && Some(history) == Appended(old(history), record)
      ensures effects == old(effects)
    {
      match history
      case Corrupt =>
        outcome := Crashed;
      case NoFile =>
        history := Records([record]);
        outcome := Recorded(record);
      case Records(rs) =>
        history := Records(rs + [record]);
        outcome := Recorded(record);
    }

    /** `run`: build the drafts, ask, post once on `y`, then append the record. */
    method Run(customContent: Option<string>, answer: string, reply: Reply<Created>, today: string) returns (outcome: RunOutcome)
      requires Valid()
      modifies this
      ensures !Confirmed(answer) ==> outcome == NotRecorded && effects == old(effects) && history == old(history)
      ensures Confirmed(answer) ==>
        effects == old(effects) + Publish(config, DraftFor(customContent, issues).linkedinPost, reply)
      ensures Confirmed(answer) && old(history).Corrupt? ==> outcome == Crashed && history == old(history)
      ensures Confirmed(answer) && !old(history).Corrupt? ==>
        outcome == Recorded(RecordFor(DraftFor(customContent, issues), today, manualMode))
      ensures Confirmed(answer) && !old(history).Corrupt? ==>
        Some(history) == Appended(old(history), RecordFor(DraftFor(customContent, issues), today, manualMode))
    {
      var d := Drafts(customContent);
      outcome := NotRecorded;
      if ToLower(answer) == "y" {
        var success := PostToLinkedIn(d.linkedinPost, reply);
        if success {
          var record := RecordFor(d, today, manualMode);
          outcome := SaveRecord(record);
        }
      }
    }
  }

  /** Manual mode never reaches the API, whatever the reply would have been. */
  lemma ManualModeNeverCallsApi(content: Post, reply: Reply<Created>)
    ensures ApiCalls(Publish(None, content, reply)) == 0
    ensures forall e :: e in Publish(None, content, reply) ==> e.ManualHandoff?
  {
  }

  /**
   * A failed request with a credential is handed off by hand, yet the record
   * still says `api`: the mode was fixed before the attempt.
   */
  lemma {:induction false} FallbackStillRecordedAsApi(p: LinkedInPoster, content: Post, d: Draft, today: string)
    requires p.Valid() && p.config.Some?
    ensures |Publish(p.config, content, NetworkError)| == 2
    ensures Publish(p.config, content, NetworkError)[1] == ManualHandoff(content)
    ensures RecordFor(d, today, p.manualMode).via == Api
    ensures RecordFor(d, today, p.manualMode).posted == PostedTrue
  {
  }

  /** A 2xx whose body is not JSON, or is the JSON `null`, was published, and is handed off by hand as well. */
  lemma NonJsonSuccessIsHandedOff(c: Config, content: Post, status: int, body: Body<Created>)
    requires Ok(status) && !body.Json?
    ensures Publish(Some(c), content, Replied(status, body))
      == [ApiPublish(AuthorUrn(c), c.accessToken, content), ManualHandoff(content)]
  {
  }
}
