// The model lifecycle: the allowed edges, the transition check, and what a contiguous
// history of allowed edges proves about its model.
module Lifecycle {
  import opened Basics

  datatype State = Candidate | Evaluating | Approved | Shadow | Canary | Production | Deprecated | Revoked

  datatype Error =
    | OperatorRequired | ModelNotFound | ManifestInvalid | ActorMismatch
    | InvalidTransition | NoteRequired | EvaluationRequired | ProgressionRefused | ArtifactInvalid
    | DeploymentConflict | PreviousVersionRequired | RollbackUnavailable | VersionExists

  predicate Allowed(from: State, to: State) {
    match (from, to)
    case (Candidate, Evaluating) => true
    case (Evaluating, Approved) => true
    case (Approved, Shadow) => true
    case (Shadow, Canary) => true
    case (Canary, Production) => true
    case (Production, Deprecated) => true
    case (Revoked, _) => false
    case (_, Revoked) => true
    case _ => false
  }

  function Rank(s: State): nat {
    match s
    case Candidate => 0
    case Evaluating => 1
    case Approved => 2
    case Shadow => 3
    case Canary => 4
    case Production => 5
    case Deprecated => 6
    case Revoked => 7
  }

  // The ladder is climbed one rung at a time, and whoever is not revoked can be.
  lemma AllowedIsTheLadder(from: State, to: State)
    ensures Allowed(from, to) <==> from != Revoked && (Rank(to) == Rank(from) + 1 || to == Revoked)
  {
  }

  // What str.strip removes.
  predicate Whitespace(c: char) {
    var code := c as int;
    9 <= code <= 13 || 28 <= code <= 32 || code == 0x85 || code == 0xA0 || code == 0x1680 || 0x2000 <= code <= 0x200A
    || code == 0x2028 || code == 0x2029 || code == 0x202F || code == 0x205F || code == 0x3000
  }

  predicate Blank(reason: string) {
    forall i :: 0 <= i < |reason| ==> Whitespace(reason[i])
  }

  // A text is blank exactly when both halves are: blanks and line breaks are, printing is not.
  lemma BlankIff(front: string, back: string)
    ensures Blank(front + back) <==> Blank(front) && Blank(back)
    ensures Blank("") && Blank(" \t\r\n")
    ensures |front| > 0 && 33 <= front[0] as int <= 126 ==> !Blank(front)
  {
    var whole := front + back;
    forall i | 0 <= i < |front| ensures whole[i] == front[i] {}
    forall i | 0 <= i < |back| ensures whole[|front| + i] == back[i] {}
  }

  // validate_transition: the error it raises, if any.
  function Refusal(current: State, target: State, actor: Option<string>, reason: string, passed: bool,
                   rollback: bool): Option<Error> {
    var allowed := if rollback && current == Deprecated && target == Production then passed
                   else Allowed(current, target);
    if !allowed then Some(InvalidTransition)
    else if actor.None? || actor.value == "" || Blank(reason) then Some(NoteRequired)
    else if target == Approved && !passed then Some(EvaluationRequired)
    else None
  }

  datatype Transition = Transition(from: Option<State>, to: State, actor: string, reason: string,
                                   evaluation: Option<string>)

  // The first transition registers a candidate; every later one starts where the one before
  // ended and follows an allowed edge, or the rollback edge.
  ghost predicate Chain(history: seq<Transition>) {
    && |history| > 0
    && history[0].from == None && history[0].to == Candidate
    && forall k :: 0 < k < |history| ==> Linked(history[k - 1], history[k])
  }

  ghost predicate Linked(a: Transition, b: Transition) {
    b.from == Some(a.to) && (Allowed(a.to, b.to) || (a.to == Deprecated && b.to == Production))
  }

  predicate Beyond(s: State) {
    s == Approved || s == Shadow || s == Canary || s == Production || s == Deprecated
  }

  predicate IsApproval(t: Transition) {
    t.from == Some(Evaluating) && t.to == Approved
  }

  // The last recorded approval among the first n transitions.
  function ApprovalIn(history: seq<Transition>, n: nat): Option<Transition>
    requires n <= |history|
  {
    if n == 0 then None else if IsApproval(history[n - 1]) then Some(history[n - 1]) else ApprovalIn(history, n - 1)
  }

  function Approval(history: seq<Transition>): Option<Transition> {
    ApprovalIn(history, |history|)
  }

  // The approval found is the last one there is.
  lemma {:induction false} ApprovalIsTheLast(history: seq<Transition>, n: nat, k: nat)
    requires k < n <= |history| && history[k].from == Some(Evaluating) && history[k].to == Approved
    requires forall j :: k < j < n ==> history[j].from != Some(Evaluating) || history[j].to != Approved
    ensures ApprovalIn(history, n) == Some(history[k])
  {
    if k < n - 1 { ApprovalIsTheLast(history, n - 1, k); }
  }

  lemma {:induction false} NoApproval(history: seq<Transition>, n: nat)
    requires n <= |history|
    ensures ApprovalIn(history, n).None? ==>
              forall k :: 0 <= k < n ==> history[k].from != Some(Evaluating) || history[k].to != Approved
    ensures ApprovalIn(history, n).Some? ==> exists k :: 0 <= k < n && LastApproval(history[..n], k)
  {
    if n > 0 {
      NoApproval(history, n - 1);
      if IsApproval(history[n - 1]) {
        assert LastApproval(history[..n], n - 1);
      } else if ApprovalIn(history, n).Some? {
        var k :| 0 <= k < n - 1 && LastApproval(history[..n - 1], k);
        assert LastApproval(history[..n], k) by {
          forall j | k <= j < n - 1 ensures history[..n - 1][j] == history[..n][j] {}
        }
      }
    }
  }

  // Transition k approves, and none after it does.
  ghost predicate LastApproval(history: seq<Transition>, k: nat) {
    && k < |history| && history[k].from == Some(Evaluating) && history[k].to == Approved
    && forall j :: k < j < |history| ==> history[j].from != Some(Evaluating) || history[j].to != Approved
  }

  lemma LastApprovalIsFound(history: seq<Transition>, k: nat)
    requires LastApproval(history, k)
    ensures Approval(history) == Some(history[k])
  {
    ApprovalIsTheLast(history, |history|, k);
  }

  lemma ApprovalIffOnRecord(history: seq<Transition>)
    ensures Approval(history).Some? <==> exists k :: LastApproval(history, k)
  {
    NoApproval(history, |history|);
    assert history[..|history|] == history;
    if k :| LastApproval(history, k) { LastApprovalIsFound(history, k); }
  }

  // Whoever was ever approved or beyond has an approval on record.
  lemma {:induction false} BeyondMeansApproved(history: seq<Transition>, n: nat, k: nat)
    requires Chain(history) && k < n <= |history| && Beyond(history[k].to)
    ensures ApprovalIn(history, n).Some?
  {
    if !IsApproval(history[n - 1]) {
      if k < n - 1 {
        BeyondMeansApproved(history, n - 1, k);
      } else {
        assert Linked(history[k - 1], history[k]);
        BeyondMeansApproved(history, n - 1, k - 1);
      }
    }
  }

  // Nothing follows a revocation in a history.
  lemma RevocationIsLast(history: seq<Transition>, k: nat)
    requires Chain(history) && k + 1 < |history|
    ensures history[k].to != Revoked
  {
    assert Linked(history[k], history[k + 1]);
  }

  lemma ChainGrows(history: seq<Transition>, t: Transition)
    requires Chain(history) && Linked(history[|history| - 1], t)
    ensures Chain(history + [t])
  {
    var longer := history + [t];
    forall k | 0 < k < |longer| ensures Linked(longer[k - 1], longer[k]) {
      if k < |history| { assert longer[k - 1] == history[k - 1] && longer[k] == history[k]; }
    }
  }
}
