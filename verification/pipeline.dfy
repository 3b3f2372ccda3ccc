/** The weekly run: fetch the newsletters, archive each one, analyse the
    archived ones with the video list, store and mail the result, and mark
    every fetched message as read. Each collaborator is an outcome the run
    is given; the run's effect is the list of calls it makes, in order. */
module Pipeline {
  import opened Wrappers
  import opened Records
  import opened Seqs
  import opened Decimal
  import Gmail
  import Prompt

  // ---------------------------------------------------------------------
  // Naming
  // ---------------------------------------------------------------------

  /** `f"{year}-W{week_number:02d}"`: the weekly folder's name, also the
      week's key in the summary store. */
  function FolderName(year: nat, isoWeek: nat): string {
    NatToString(year) + "-W" + PadTwo(isoWeek)
  }

  /** The position of the first '-' in `s`, or `|s|` when there is none. */
  function DashIndex(s: string): (k: nat)
    ensures k <= |s|
    ensures k < |s| ==> s[k] == '-'
    ensures forall j :: 0 <= j < k ==> s[j] != '-'
  {
    if s == [] || s[0] == '-' then 0 else 1 + DashIndex(s[1..])
  }

  /** Reads a folder name back as (year, week). */
  function ParseFolderName(name: string): Option<(nat, nat)> {
    var k := DashIndex(name);
    if 0 < k && k + 2 <= |name| && name[k + 1] == 'W' && AllDigits(name[..k]) && AllDigits(name[k + 2..])
    then Some((DigitsValue(name[..k]), DigitsValue(name[k + 2..])))
    else None
  }

  /** The folder name determines the year and the week it was made from:
      reading it back gives both. */
  lemma FolderNameRoundTrip(year: nat, isoWeek: nat)
    ensures ParseFolderName(FolderName(year, isoWeek)) == Some((year, isoWeek))
  {
    ParseJoined(NatToString(year), PadTwo(isoWeek));
    NatToStringRoundTrip(year);
    PadTwoRoundTrip(isoWeek);
  }

  /** Two digit strings joined by "-W" are read back as their values. */
  lemma ParseJoined(yearDigits: string, weekDigits: string)
    requires yearDigits != [] && AllDigits(yearDigits) && AllDigits(weekDigits)
    ensures ParseFolderName(yearDigits + "-W" + weekDigits) == Some((DigitsValue(yearDigits), DigitsValue(weekDigits)))
  {
    var rest := "-W" + weekDigits;
    var name := yearDigits + rest;
    assert yearDigits + "-W" + weekDigits == name;
    DashAfterDigits(yearDigits, rest);
    assert name[..|yearDigits|] == yearDigits;
    assert name[|yearDigits| + 2..] == weekDigits;
  }

  /** The first dash after a run of digits is the one that ends the run. */
  lemma {:induction false} DashAfterDigits(digits: string, rest: string)
    requires AllDigits(digits) && rest != [] && rest[0] == '-'
    ensures DashIndex(digits + rest) == |digits|
  {
    if digits != [] {
      assert (digits + rest)[1..] == digits[1..] + rest;
      DashAfterDigits(digits[1..], rest);
    } else {
      assert digits + rest == rest;
    }
  }

  /** Different weeks get different folders. */
  lemma FolderNameInjective(y1: nat, w1: nat, y2: nat, w2: nat)
    requires FolderName(y1, w1) == FolderName(y2, w2)
    ensures y1 == y2 && w1 == w2
  {
    FolderNameRoundTrip(y1, w1);
    FolderNameRoundTrip(y2, w2);
  }

  /** The e-mail's subject names the week without padding. */
  function EmailSubject(isoWeek: nat): string {
    "AI-sammanfattning vecka " + NatToString(isoWeek)
  }

  // ---------------------------------------------------------------------
  // Collaborators and the calls made to them
  // ---------------------------------------------------------------------

  /** What the archive returns for a saved file. */
  datatype FileInfo = FileInfo(id: string, url: string)

  /** The calls the run makes after fetching, with their arguments. */
  datatype Call =
    | CreateWeeklyFolder(folderName: string)
    | SaveNewsletter(newsletter: Newsletter, folderId: string)
    | GetVideos
    | AnalyzeWeek(newsletters: seq<SavedNewsletter>, videos: seq<Video>)
    | SaveWeeklySummary(week: string, markdown: string, newsletters: seq<SavedNewsletter>, youtubePicks: seq<Video>)
    | SendSummary(to: string, subject: string, markdown: string, week: string)
    | MarkAsRead(ids: seq<string>)

  /** How a run ends: early because nothing was fetched, after marking the
      messages read, or with an exception (the process exits with status 1). */
  datatype Exit = NoNewsletters | Completed | Failed

  datatype Run = Run(calls: seq<Call>, exit: Exit)

  /** The answers of the collaborators. `year` and `isoWeek` are
      `datetime.now().year` and `datetime.now().isocalendar()[1]`; `save(k)`
      is the outcome of the `k`-th archive call; `videos` is what the video
      list returned (itself `[]` on failure); `generate` is the generative
      call. */
  datatype Services = Services(
    year: nat,
    isoWeek: nat,
    createFolder: Outcome<string>,
    save: nat -> Outcome<FileInfo>,
    videos: seq<Video>,
    generate: string -> Outcome<string>,
    storeSummary: Outcome<string>,
    sendEmail: Outcome<()>,
    emailTo: string)

  /** One archive call per fetched newsletter, in order, into the weekly
      folder. */
  function SaveCalls(fetched: seq<Newsletter>, folderId: string): (cs: seq<Call>)
    ensures |cs| == |fetched|
    ensures forall k :: 0 <= k < |fetched| ==> cs[k] == SaveNewsletter(fetched[k], folderId)
  {
    if fetched == [] then []
    else SaveCalls(fetched[..|fetched| - 1], folderId) + [SaveNewsletter(fetched[|fetched| - 1], folderId)]
  }

  /** The record the loop appends when the `k`-th save succeeds: the fetched
      record plus the archive's link and id. */
  function Archived(nl: Newsletter, outcome: Outcome<FileInfo>): Option<SavedNewsletter> {
    match outcome
    case Raised => None
    case Ok(info) => Some(SavedNewsletter(nl, info.url, info.id))
  }

  function SaveOutcomes(fetched: seq<Newsletter>, save: nat -> Outcome<FileInfo>): (os: seq<Option<SavedNewsletter>>)
    ensures |os| == |fetched|
    ensures forall k :: 0 <= k < |fetched| ==> os[k] == Archived(fetched[k], save(k))
  {
    if fetched == [] then []
    else SaveOutcomes(fetched[..|fetched| - 1], save) + [Archived(fetched[|fetched| - 1], save(|fetched| - 1))]
  }

  /** `saved_newsletters` after the loop. */
  function SavedNewsletters(fetched: seq<Newsletter>, save: nat -> Outcome<FileInfo>): seq<SavedNewsletter> {
    Successes(SaveOutcomes(fetched, save))
  }

  /** `[nl['id'] for nl in newsletters]`. */
  function Ids(fetched: seq<Newsletter>): (ids: seq<string>)
    ensures |ids| == |fetched|
    ensures forall k :: 0 <= k < |fetched| ==> ids[k] == fetched[k].id
  {
    seq(|fetched|, k requires 0 <= k < |fetched| => fetched[k].id)
  }

  // ---------------------------------------------------------------------
  // The run
  // ---------------------------------------------------------------------

  /** Steps 4 to 8, once the archive loop is over: the video list, the
      analysis of the archived newsletters, the summary store, the e-mail and
      marking every fetched message as read. */
  function Conclusion(week: string, fetched: seq<Newsletter>, saved: seq<SavedNewsletter>,
                      analysis: Outcome<Prompt.Analysis>, env: Services): Run {
    var untilAnalysis := [GetVideos, AnalyzeWeek(saved, env.videos)];
    match analysis
    case Raised => Run(untilAnalysis, Failed)
    case Ok(analysis) =>
      var untilStore := untilAnalysis + [SaveWeeklySummary(week, analysis.markdown, saved, analysis.youtubePicks)];
      if env.storeSummary.Raised? then Run(untilStore, Failed)
      else
        var untilEmail := untilStore + [SendSummary(env.emailTo, EmailSubject(env.isoWeek), analysis.markdown, week)];
        if env.sendEmail.Raised? then Run(untilEmail, Failed)
        else Run(untilEmail + [MarkAsRead(Ids(fetched))], Completed)
  }

  /** The run, given what was fetched and what the analysis step answers. */
  function RunWith(fetched: seq<Newsletter>, env: Services, analysis: Outcome<Prompt.Analysis>): Run {
    if fetched == [] then Run([], NoNewsletters)
    else
      var week := FolderName(env.year, env.isoWeek);
      match env.createFolder
      case Raised => Run([CreateWeeklyFolder(week)], Failed)
      case Ok(folderId) =>
        var rest := Conclusion(week, fetched, SavedNewsletters(fetched, env.save), analysis, env);
        Run([CreateWeeklyFolder(week)] + SaveCalls(fetched, folderId) + rest.calls, rest.exit)
  }

  /** The run, given what was fetched: the analysis step is the generative
      call on the prompt built from the archived newsletters. */
  function WeeklyRun(fetched: seq<Newsletter>, env: Services): Run {
    var saved := SavedNewsletters(fetched, env.save);
    RunWith(fetched, env, Prompt.WeekAnalysis(saved, env.videos, env.generate))
  }

  // ---------------------------------------------------------------------
  // What a run does, whatever the analysis answers
  // ---------------------------------------------------------------------

  /** The run ends early, making no call at all, exactly when nothing was
      fetched; otherwise its first call creates the weekly folder, and a
      failure there ends the run. */
  lemma NothingFetchedNoCalls(fetched: seq<Newsletter>, env: Services, analysis: Outcome<Prompt.Analysis>)
    ensures var run := RunWith(fetched, env, analysis);
            && (run.calls == [] <==> fetched == [])
            && (run.exit == NoNewsletters <==> fetched == [])
            && (fetched != [] ==> run.calls[0] == CreateWeeklyFolder(FolderName(env.year, env.isoWeek)))
            && (fetched != [] && env.createFolder.Raised? ==> run == Run([CreateWeeklyFolder(FolderName(env.year, env.isoWeek))], Failed))
  {
  }

  /** The steps after the archive loop, each reached only when the one
      before it succeeded. */
  lemma ConclusionSteps(week: string, fetched: seq<Newsletter>, saved: seq<SavedNewsletter>,
                        analysis: Outcome<Prompt.Analysis>, env: Services)
    ensures var rest := Conclusion(week, fetched, saved, analysis, env);
            && 2 <= |rest.calls| <= 5
            && rest.calls[0] == GetVideos
            && rest.calls[1] == AnalyzeWeek(saved, env.videos)
            && (|rest.calls| > 2 <==> analysis.Ok?)
            && (|rest.calls| > 2 ==>
                  rest.calls[2] == SaveWeeklySummary(week, analysis.value.markdown, saved, analysis.value.youtubePicks))
            && (|rest.calls| > 3 <==> analysis.Ok? && env.storeSummary.Ok?)
            && (|rest.calls| > 3 ==>
                  rest.calls[3] == SendSummary(env.emailTo, EmailSubject(env.isoWeek), analysis.value.markdown, week))
            && (|rest.calls| > 4 <==> analysis.Ok? && env.storeSummary.Ok? && env.sendEmail.Ok?)
            && (|rest.calls| > 4 ==> rest.calls[4] == MarkAsRead(Ids(fetched)))
            && (rest.exit == Completed <==> |rest.calls| == 5)
            && (rest.exit != Completed ==> rest.exit == Failed)
  {
  }

  /** Once the folder exists, every fetched newsletter is sent to the archive
      in order, a failed save included; then the video list is read, and the
      analysis is asked about the archived newsletters only. */
  lemma ArchiveThenAnalyse(fetched: seq<Newsletter>, env: Services, analysis: Outcome<Prompt.Analysis>)
    requires fetched != [] && env.createFolder.Ok?
    ensures |RunWith(fetched, env, analysis).calls| >= |fetched| + 3
    ensures forall k :: 0 <= k < |fetched| ==>
              RunWith(fetched, env, analysis).calls[1 + k] == SaveNewsletter(fetched[k], env.createFolder.value)
    ensures RunWith(fetched, env, analysis).calls[|fetched| + 1] == GetVideos
    ensures RunWith(fetched, env, analysis).calls[|fetched| + 2] == AnalyzeWeek(SavedNewsletters(fetched, env.save), env.videos)
  {
    var week := FolderName(env.year, env.isoWeek);
    var saved := SavedNewsletters(fetched, env.save);
    var rest := Conclusion(week, fetched, saved, analysis, env);
    ConclusionSteps(week, fetched, saved, analysis, env);
    var saves := SaveCalls(fetched, env.createFolder.value);
    var calls := RunWith(fetched, env, analysis).calls;
    assert calls == [CreateWeeklyFolder(week)] + saves + rest.calls;
    forall k | 0 <= k < |fetched|
      ensures calls[1 + k] == SaveNewsletter(fetched[k], env.createFolder.value)
    {
      assert calls[1 + k] == saves[k];
    }
    assert calls[|fetched| + 1] == rest.calls[0];
    assert calls[|fetched| + 2] == rest.calls[1];
  }

  /** A successful analysis is stored under the folder's name together with
      the archived newsletters, and once stored it is mailed with the
      unpadded week in the subject. */
  lemma StoreThenMail(fetched: seq<Newsletter>, env: Services, analysis: Outcome<Prompt.Analysis>)
    requires fetched != [] && env.createFolder.Ok? && analysis.Ok?
    ensures var run := RunWith(fetched, env, analysis);
            var week := FolderName(env.year, env.isoWeek);
            && |run.calls| >= |fetched| + 4
            && run.calls[|fetched| + 3]
               == SaveWeeklySummary(week, analysis.value.markdown, SavedNewsletters(fetched, env.save), analysis.value.youtubePicks)
    ensures var run := RunWith(fetched, env, analysis);
            env.storeSummary.Ok? ==>
              && |run.calls| >= |fetched| + 5
              && run.calls[|fetched| + 4]
                 == SendSummary(env.emailTo, EmailSubject(env.isoWeek), analysis.value.markdown, FolderName(env.year, env.isoWeek))
  {
    var week := FolderName(env.year, env.isoWeek);
    var saved := SavedNewsletters(fetched, env.save);
    var rest := Conclusion(week, fetched, saved, analysis, env);
    ConclusionSteps(week, fetched, saved, analysis, env);
    var prefix := [CreateWeeklyFolder(week)] + SaveCalls(fetched, env.createFolder.value);
    assert RunWith(fetched, env, analysis).calls == prefix + rest.calls;
  }

  /** A run completes exactly when something was fetched and the folder,
      the analysis, the store and the e-mail all succeeded; it then ends by
      marking every fetched message as read, including those whose archiving
      failed. */
  lemma CompletionMarksAllFetched(fetched: seq<Newsletter>, env: Services, analysis: Outcome<Prompt.Analysis>)
    ensures var run := RunWith(fetched, env, analysis);
            && (run.exit == Completed <==>
                  fetched != [] && env.createFolder.Ok? && analysis.Ok? && env.storeSummary.Ok? && env.sendEmail.Ok?)
            && (run.exit == Completed ==> run.calls[|run.calls| - 1] == MarkAsRead(Ids(fetched)))
  {
    if fetched != [] && env.createFolder.Ok? {
      var week := FolderName(env.year, env.isoWeek);
      var saved := SavedNewsletters(fetched, env.save);
      ConclusionSteps(week, fetched, saved, analysis, env);
    }
  }

  /** No other call marks messages as read: a mark-as-read call is the last
      call of a completed run. */
  lemma MarkAsReadOnlyOnCompletion(fetched: seq<Newsletter>, env: Services, analysis: Outcome<Prompt.Analysis>)
    ensures var run := RunWith(fetched, env, analysis);
            forall i :: 0 <= i < |run.calls| && run.calls[i].MarkAsRead? ==>
              run.exit == Completed && i == |run.calls| - 1
  {
    var run := RunWith(fetched, env, analysis);
    if fetched != [] && env.createFolder.Ok? {
      var week := FolderName(env.year, env.isoWeek);
      var saved := SavedNewsletters(fetched, env.save);
      var rest := Conclusion(week, fetched, saved, analysis, env);
      ConclusionMarksLast(week, fetched, saved, analysis, env);
      var prefix := [CreateWeeklyFolder(week)] + SaveCalls(fetched, env.createFolder.value);
      assert run == Run(prefix + rest.calls, rest.exit);
      forall i | 0 <= i < |prefix|
        ensures !prefix[i].MarkAsRead?
      {
        if 0 < i {
          assert prefix[i] == SaveCalls(fetched, env.createFolder.value)[i - 1];
        }
      }
      MarksOnlyAfter(prefix, rest);
    }
  }

  /** Calls placed before a run's own calls that mark nothing as read leave
      mark-as-read the last call of a completed run. */
  lemma MarksOnlyAfter(prefix: seq<Call>, rest: Run)
    requires forall i :: 0 <= i < |prefix| ==> !prefix[i].MarkAsRead?
    requires forall i :: 0 <= i < |rest.calls| && rest.calls[i].MarkAsRead? ==>
               rest.exit == Completed && i == |rest.calls| - 1
    ensures var run := Run(prefix + rest.calls, rest.exit);
            forall i :: 0 <= i < |run.calls| && run.calls[i].MarkAsRead? ==>
              run.exit == Completed && i == |run.calls| - 1
  {
    var calls := prefix + rest.calls;
    forall i | 0 <= i < |calls| && calls[i].MarkAsRead?
      ensures rest.exit == Completed && i == |calls| - 1
    {
      if |prefix| <= i {
        assert calls[i] == rest.calls[i - |prefix|];
      }
    }
  }

  lemma ConclusionMarksLast(week: string, fetched: seq<Newsletter>, saved: seq<SavedNewsletter>,
                            analysis: Outcome<Prompt.Analysis>, env: Services)
    ensures var rest := Conclusion(week, fetched, saved, analysis, env);
            forall i :: 0 <= i < |rest.calls| && rest.calls[i].MarkAsRead? ==>
              rest.exit == Completed && i == |rest.calls| - 1
  {
  }

  /** The archived list is the fetched newsletters whose save succeeded, in
      fetch order, each with the link and id its save returned. */
  lemma SavedAreSuccessfulSaves(fetched: seq<Newsletter>, save: nat -> Outcome<FileInfo>)
    ensures var saved := SavedNewsletters(fetched, save);
            var ks := SuccessIndices(SaveOutcomes(fetched, save));
            && |saved| == |ks| <= |fetched|
            && (forall j :: 0 <= j < |ks| ==>
                  ks[j] < |fetched| && save(ks[j]).Ok?
                  && saved[j] == SavedNewsletter(fetched[ks[j]], save(ks[j]).value.url, save(ks[j]).value.id))
            && (forall k :: 0 <= k < |fetched| && save(k).Ok? ==> k in ks)
            && (forall i, j :: 0 <= i < j < |ks| ==> ks[i] < ks[j])
  {
    var saved := SavedNewsletters(fetched, save);
    var os := SaveOutcomes(fetched, save);
    var ks := SuccessIndices(os);
    SuccessesSelect(os);
    forall j | 0 <= j < |ks|
      ensures ks[j] < |fetched| && save(ks[j]).Ok?
      ensures saved[j] == SavedNewsletter(fetched[ks[j]], save(ks[j]).value.url, save(ks[j]).value.id)
    {
      assert os[ks[j]] == Archived(fetched[ks[j]], save(ks[j]));
    }
    forall k | 0 <= k < |fetched| && save(k).Ok?
      ensures k in ks
    {
      assert os[k] == Archived(fetched[k], save(k));
    }
  }

  /** When every save succeeds, every fetched newsletter is archived, in
      order; when every save fails, the analysis gets an empty list. */
  lemma SavesAllOkOrAllFailed(fetched: seq<Newsletter>, save: nat -> Outcome<FileInfo>)
    ensures (forall k :: 0 <= k < |fetched| ==> save(k).Ok?) ==>
              |SavedNewsletters(fetched, save)| == |fetched|
              && (forall k :: 0 <= k < |fetched| ==> SavedNewsletters(fetched, save)[k].newsletter == fetched[k])
    ensures (forall k :: 0 <= k < |fetched| ==> save(k).Raised?) ==> SavedNewsletters(fetched, save) == []
  {
    var os := SaveOutcomes(fetched, save);
    if forall k :: 0 <= k < |fetched| ==> save(k).Ok? {
      assert forall k :: 0 <= k < |os| ==> os[k] == Archived(fetched[k], save(k));
      SuccessesAllOk(os);
    }
    if forall k :: 0 <= k < |fetched| ==> save(k).Raised? {
      assert forall k :: 0 <= k < |os| ==> os[k] == Archived(fetched[k], save(k));
      SuccessesAllFailed(os);
    }
  }

  /** Step 3: archive each newsletter; a failed save is logged and skipped. */
  method ArchiveAll(newsletters: seq<Newsletter>, folderId: string, save: nat -> Outcome<FileInfo>)
    returns (calls: seq<Call>, savedNewsletters: seq<SavedNewsletter>)
    ensures calls == SaveCalls(newsletters, folderId)
    ensures savedNewsletters == SavedNewsletters(newsletters, save)
  {
    calls := [];
    savedNewsletters := [];
    for k := 0 to |newsletters|
      invariant calls == SaveCalls(newsletters[..k], folderId)
      invariant savedNewsletters == SavedNewsletters(newsletters[..k], save)
    {
      assert newsletters[..k + 1][..k] == newsletters[..k];
      assert SaveOutcomes(newsletters[..k + 1], save)
          == SaveOutcomes(newsletters[..k], save) + [Archived(newsletters[k], save(k))];
      var newsletter := newsletters[k];
      calls := calls + [SaveNewsletter(newsletter, folderId)];
      match save(k)
      case Ok(fileInfo) =>
        savedNewsletters := savedNewsletters + [SavedNewsletter(newsletter, fileInfo.url, fileInfo.id)];
      case Raised =>
    }
    assert newsletters[..|newsletters|] == newsletters;
  }

  /** Steps 4 to 8. */
  method Conclude(week: string, newsletters: seq<Newsletter>, savedNewsletters: seq<SavedNewsletter>, env: Services)
    returns (rest: Run)
    ensures rest == Conclusion(week, newsletters, savedNewsletters,
                               Prompt.WeekAnalysis(savedNewsletters, env.videos, env.generate), env)
  {
    var youtubeVideos := env.videos;
    var calls := [GetVideos, AnalyzeWeek(savedNewsletters, youtubeVideos)];
    var analysis := Prompt.AnalyzeWeek(savedNewsletters, youtubeVideos, env.generate);
    if analysis.Raised? {
      return Run(calls, Failed);
    }

    calls := calls + [SaveWeeklySummary(week, analysis.value.markdown, savedNewsletters, analysis.value.youtubePicks)];
    if env.storeSummary.Raised? {
      return Run(calls, Failed);
    }

    calls := calls + [SendSummary(env.emailTo, EmailSubject(env.isoWeek), analysis.value.markdown, week)];
    if env.sendEmail.Raised? {
      return Run(calls, Failed);
    }

    var newsletterIds := Ids(newsletters);
    calls := calls + [MarkAsRead(newsletterIds)];
    rest := Run(calls, Completed);
  }

  /** `main()`. */
  method RunWeekly(mailbox: Gmail.Mailbox, decode: Gmail.Decoder, now: Gmail.Moment, env: Services)
    returns (run: Run)
    ensures run == WeeklyRun(Gmail.LastWeekNewsletters(mailbox, decode, now), env)
  {
    var newsletters := Gmail.NewslettersLastWeek(mailbox, decode, now);
    if newsletters == [] {
      return Run([], NoNewsletters);
    }

    var folderName := FolderName(env.year, env.isoWeek);
    if env.createFolder.Raised? {
      return Run([CreateWeeklyFolder(folderName)], Failed);
    }
    var folderId := env.createFolder.value;

    var saveCalls, savedNewsletters := ArchiveAll(newsletters, folderId, env.save);
    var rest := Conclude(folderName, newsletters, savedNewsletters, env);
    run := Run([CreateWeeklyFolder(folderName)] + saveCalls + rest.calls, rest.exit);
  }
}
