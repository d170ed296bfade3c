/** PDF view tokens: who issues them, what /jobs/:id/files/:kind accepts, and for how long. A keyed hash is taken
    as injective, so a token is the message it signs. */
module Tokens {
  import opened Retention
  import opened Tables
  import opened Pipeline
  import opened Identity
  import opened Rows

  function TokenOf(i: Issue): string {
    PdfViewTokenMessage(i.subject, i.expiryText, i.exempt)
  }

  function ExemptToken(j: JobId): string {
    PdfViewTokenMessage(j, "", true)
  }

  function OrdinaryToken(j: JobId, job: Job): string {
    PdfViewTokenMessage(j, ExpiryText(job.downloadExpiry), false)
  }

  datatype FileAnswer = NotFound | PublicGone | Unauthorized | NotReady | DownloadGone | Served

  /** The checks of the file endpoint, in order. For a public job the receipt check is an input. */
  function FileRequest(w: World, j: JobId, token: string, receiptMatches: bool): FileAnswer {
    if j !in w.jobs || w.jobs[j].deleted then NotFound
    else
      var job := w.jobs[j];
      if job.owner == Public && !PublicAlive(job, w.clock) then PublicGone
      else
        var exemptToken := job.owner == Firebase && job.exempt && token == ExemptToken(j);
        var valid := if job.owner == Public then receiptMatches else exemptToken || token == OrdinaryToken(j, job);
        if !valid then Unauthorized
        else if job.status != Completed then NotReady
        else if IsExpiredAt(job.downloadExpiry, exemptToken, w.clock) then DownloadGone
        else Served
  }

  /** Tokens are issued for existing jobs, and job ids contain no colon. */
  ghost predicate TokensOk(w: World) {
    && (forall i :: i in w.issued ==> ColonFree(i.subject))
    && (forall j :: j in w.jobs ==> ColonFree(j))
  }

  lemma TokensOkKept(w: World, a: Action)
    requires Enabled(w, a) && Owned(w) && RowsOk(w) && TokensOk(w)
    ensures TokensOk(Apply(w, a))
  {
    if a.OfPost? && a.post.PostInsert? {
      assert RequestOk(w.requests[a.post.r]);
    }
    hide Updated, RequestsAfter, RowsOk, Owned;
  }

  /** A token that opens a user's job was issued for that very job. */
  lemma AcceptedWasIssuedForJob(w: World, i: Issue, j: JobId)
    requires TokensOk(w) && i in w.issued
    requires j in w.jobs && w.jobs[j].owner == Firebase
    requires FileRequest(w, j, TokenOf(i), false) in {NotReady, DownloadGone, Served}
    ensures i.subject == j
    ensures i.exempt ==> w.jobs[j].exempt
    ensures !i.exempt ==> i.expiryText == ExpiryText(w.jobs[j].downloadExpiry)
  {
    if TokenOf(i) == ExemptToken(j) {
      MessageUnambiguous(i.subject, i.expiryText, i.exempt, j, "", true);
    }
    if TokenOf(i) == OrdinaryToken(j, w.jobs[j]) {
      MessageUnambiguous(i.subject, i.expiryText, i.exempt, j, ExpiryText(w.jobs[j].downloadExpiry), false);
    }
    hide PdfViewTokenMessage;
  }

  /** An exempt token opens a user's job exactly while the job is exempt, completed and not deleted. */
  lemma ExemptTokenServed(w: World, j: JobId)
    requires j in w.jobs && w.jobs[j].owner == Firebase && TokensOk(w) && RowsOk(w)
    ensures FileRequest(w, j, ExemptToken(j), false) == Served <==>
            w.jobs[j].exempt && w.jobs[j].status == Completed && !w.jobs[j].deleted
  {
    if ExemptToken(j) == OrdinaryToken(j, w.jobs[j]) {
      MessageUnambiguous(j, "", true, j, ExpiryText(w.jobs[j].downloadExpiry), false);
      assert false;
    }
    hide PdfViewTokenMessage;
  }

  /** The ordinary token for the expiry text t opens it exactly while that is the job's expiry text, not past. */
  lemma OrdinaryTokenServed(w: World, j: JobId, text: string)
    requires j in w.jobs && w.jobs[j].owner == Firebase && TokensOk(w)
    ensures FileRequest(w, j, PdfViewTokenMessage(j, text, false), false) == Served <==>
            && ExpiryText(w.jobs[j].downloadExpiry) == text
            && w.jobs[j].status == Completed && !w.jobs[j].deleted
            && !IsExpiredAt(w.jobs[j].downloadExpiry, false, w.clock)
  {
    var token := PdfViewTokenMessage(j, text, false);
    if token == ExemptToken(j) {
      MessageUnambiguous(j, text, false, j, "", true);
      assert false;
    }
    if token == OrdinaryToken(j, w.jobs[j]) {
      MessageUnambiguous(j, text, false, j, ExpiryText(w.jobs[j].downloadExpiry), false);
    }
    hide PdfViewTokenMessage;
  }

  /** A public job is served exactly to who has its receipt, while it is alive, completed, not deleted and not past its
      download expiry; view tokens do not matter. */
  lemma PublicServed(w: World, j: JobId, token: string, receiptMatches: bool)
    requires j in w.jobs && w.jobs[j].owner == Public
    ensures var job := w.jobs[j];
            FileRequest(w, j, token, receiptMatches) == Served <==>
              && receiptMatches && job.status == Completed && !job.deleted
              && job.publicExpiry.Some? && w.clock < job.publicExpiry.value
              && (ExpiryText(job.downloadExpiry) == "" || w.clock <= job.downloadExpiry.value.ms)
  {
    hide PdfViewTokenMessage;
  }

  /** And whoever it is not served to is told why, the first of the reasons in this order. */
  lemma RefusedBecause(w: World, j: JobId, token: string, receiptMatches: bool)
    ensures var answer := FileRequest(w, j, token, receiptMatches);
            && (answer == NotFound <==> j !in w.jobs || w.jobs[j].deleted)
            && (answer == PublicGone <==>
                 && j in w.jobs && !w.jobs[j].deleted && w.jobs[j].owner == Public
                 && (w.jobs[j].publicExpiry.None? || w.clock >= w.jobs[j].publicExpiry.value))
            && (answer in {NotReady, DownloadGone, Served} && w.jobs[j].owner == Firebase ==>
                 (w.jobs[j].exempt && token == ExemptToken(j)) || token == OrdinaryToken(j, w.jobs[j]))
            && (answer == NotReady ==> w.jobs[j].status != Completed)
            && (answer == DownloadGone ==> w.jobs[j].downloadExpiry.Some? && w.clock > w.jobs[j].downloadExpiry.value.ms)
  {
    hide PdfViewTokenMessage;
  }

  /** A token handed out for a job is recorded, and opens the job at once exactly when the job is completed, the token is
      exempt only if the job is, and an ordinary one is not past its expiry. */
  lemma IssuedTokenWorks(w: World, j: JobId, exempt: bool)
    requires UserEnabled(w, IssueToken(j, exempt)) && TokensOk(w) && RowsOk(w)
    ensures Enabled(w, OfUser(IssueToken(j, exempt)))
    ensures var w' := Apply(w, OfUser(IssueToken(j, exempt)));
            var issue := Issue(j, ExpiryText(w.jobs[j].downloadExpiry), exempt);
            && w'.issued == w.issued + {issue} && j in w'.jobs && w'.jobs[j] == w.jobs[j]
            && (FileRequest(w', j, TokenOf(issue), false) == Served <==>
                  w.jobs[j].status == Completed &&
                  (if exempt then w.jobs[j].exempt
                   else ExpiryText(w.jobs[j].downloadExpiry) == "" || w.clock <= w.jobs[j].downloadExpiry.value.ms))
  {
    var w' := Apply(w, OfUser(IssueToken(j, exempt)));
    JobPersists(w, OfUser(IssueToken(j, exempt)), j);
    ExemptTokenServed(w, j);
    OrdinaryTokenServed(w, j, ExpiryText(w.jobs[j].downloadExpiry));
    assert w'.clock == w.clock && w'.jobs[j] == w.jobs[j];
    ExemptMessage(j, ExpiryText(w.jobs[j].downloadExpiry));
    SameAnswer(w, w', j, TokenOf(Issue(j, ExpiryText(w.jobs[j].downloadExpiry), exempt)));
    hide FileRequest, PdfViewTokenMessage, RowsOk, TokensOk, JobsAfter;
  }

  lemma ExemptMessage(j: JobId, text: string)
    ensures PdfViewTokenMessage(j, text, true) == ExemptToken(j)
  {
  }

  lemma SameAnswer(w: World, w': World, j: JobId, token: string)
    requires j in w.jobs && j in w'.jobs && w'.jobs[j] == w.jobs[j] && w'.clock == w.clock
    ensures FileRequest(w', j, token, false) == FileRequest(w, j, token, false)
  {
    hide PdfViewTokenMessage;
  }
}
