/**
 * The Raft node of the distributed engine: the vote and append-entries
 * handlers and the start of an election. A node's persistent state is its
 * current term, the candidate it voted for in that term and its log; the
 * handlers change it in place.
 *
 * Log indices in requests are 1-based, as in the paper by Ongaro and
 * Ousterhout ("In Search of an Understandable Consensus Algorithm",
 * sections 5.2, 5.3 and 5.4.1); index 0 means "before the first entry".
 * Entry timestamps are plain numbers supplied by the caller.
 */
module Raft {
  import opened Wrappers

  datatype NodeState = Follower | Candidate | Leader

  datatype LogEntry = LogEntry(term: nat, index: nat, command: string, data: seq<bv8>, timestamp: nat)

  datatype VoteRequest = VoteRequest(term: nat, candidateId: string, lastLogIndex: nat, lastLogTerm: nat)
  datatype VoteResponse = VoteResponse(term: nat, voteGranted: bool)

  datatype AppendEntriesRequest = AppendEntriesRequest(
    term: nat, leaderId: string, prevLogIndex: nat, prevLogTerm: nat,
    entries: seq<LogEntry>, leaderCommit: nat)
  datatype AppendEntriesResponse = AppendEntriesResponse(term: nat, success: bool, matchIndex: Option<nat>)

  /** The state the handlers read and write. */
  datatype RaftState = RaftState(currentTerm: nat, votedFor: Option<string>, log: seq<LogEntry>, role: NodeState)

  /** The term of the last entry, 0 for an empty log. */
  function LastLogTerm(log: seq<LogEntry>): nat {
    if log == [] then 0 else log[|log| - 1].term
  }

  /** Section 5.4.1: the candidate's log is at least as up to date as this one. */
  predicate UpToDate(req: VoteRequest, log: seq<LogEntry>) {
    req.lastLogTerm > LastLogTerm(log)
    || (req.lastLogTerm == LastLogTerm(log) && req.lastLogIndex >= |log|)
  }

  /**
   * `handle_vote_request`: a newer term is adopted first (vote cleared,
   * back to follower); then the vote goes to the candidate unless its term
   * is stale, another candidate already has this node's vote in the term,
   * or its log is behind.
   */
  function VoteStep(s: RaftState, req: VoteRequest): (r: (RaftState, VoteResponse))
    ensures r.0.currentTerm == if req.term > s.currentTerm then req.term else s.currentTerm
    ensures r.0.role == if req.term > s.currentTerm then Follower else s.role
    ensures r.0.log == s.log
    ensures r.1.term == r.0.currentTerm
    ensures r.1.voteGranted <==>
      (req.term >= s.currentTerm
       && (req.term > s.currentTerm || s.votedFor.None? || s.votedFor == Some(req.candidateId))
       && UpToDate(req, s.log))
    ensures r.1.voteGranted ==> r.0.votedFor == Some(req.candidateId)
    ensures !r.1.voteGranted ==> r.0.votedFor == if req.term > s.currentTerm then None else s.votedFor
  {
    var s1 := if req.term > s.currentTerm then s.(currentTerm := req.term, votedFor := None, role := Follower) else s;
    var granted :=
      if req.term < s1.currentTerm then false
      else if s1.votedFor.Some? && s1.votedFor != Some(req.candidateId) then false
      else UpToDate(req, s1.log);
    var s2 := if granted then s1.(votedFor := Some(req.candidateId)) else s1;
    (s2, VoteResponse(s2.currentTerm, granted))
  }

  /**
   * `handle_append_entries`: a stale term is refused without a change; a
   * newer one is adopted with the vote cleared. The node then follows. A
   * log too short for `prevLogIndex` is refused; a term mismatch at
   * `prevLogIndex` cuts the log before that entry and is refused; otherwise
   * non-empty entries replace everything after `prevLogIndex`.
   */
  function AppendStep(s: RaftState, req: AppendEntriesRequest): (r: (RaftState, AppendEntriesResponse))
    ensures req.term < s.currentTerm ==> r == (s, AppendEntriesResponse(s.currentTerm, false, None))
    ensures req.term >= s.currentTerm ==>
      r.0.currentTerm == req.term && r.0.role == Follower && r.1.term == req.term
      && r.0.votedFor == (if req.term > s.currentTerm then None else s.votedFor)
    ensures req.term >= s.currentTerm && req.prevLogIndex > 0 && |s.log| < req.prevLogIndex ==>
      r.0.log == s.log && !r.1.success && r.1.matchIndex == Some(|s.log|)
    ensures req.term >= s.currentTerm && 0 < req.prevLogIndex <= |s.log|
            && s.log[req.prevLogIndex - 1].term != req.prevLogTerm ==>
      r.0.log == s.log[..req.prevLogIndex - 1] && !r.1.success && r.1.matchIndex == Some(req.prevLogIndex - 1)
    ensures r.1.success <==>
      (req.term >= s.currentTerm
       && (req.prevLogIndex == 0
           || (req.prevLogIndex <= |s.log| && s.log[req.prevLogIndex - 1].term == req.prevLogTerm)))
    ensures r.1.success ==>
      r.0.log == (if req.entries == [] then s.log else s.log[..req.prevLogIndex] + req.entries)
      && r.1.matchIndex == Some(|r.0.log|)
  {
    if req.term < s.currentTerm then (s, AppendEntriesResponse(s.currentTerm, false, None))
    else
      var s1 := (if req.term > s.currentTerm then s.(currentTerm := req.term, votedFor := None) else s).(role := Follower);
      var prev := req.prevLogIndex;
      if prev > 0 && |s1.log| < prev then
        (s1, AppendEntriesResponse(s1.currentTerm, false, Some(|s1.log|)))
      else if prev > 0 && s1.log[prev - 1].term != req.prevLogTerm then
        (s1.(log := s1.log[..prev - 1]), AppendEntriesResponse(s1.currentTerm, false, Some(prev - 1)))
      else
        var log := if req.entries != [] then s1.log[..prev] + req.entries else s1.log;
        (s1.(log := log), AppendEntriesResponse(s1.currentTerm, true, Some(|log|)))
  }

  /** A node's state with its peers; `handle_*` and `start_election` change it in place. */
  class RaftConsensus {
    const nodeId: string
    var currentTerm: nat
    var votedFor: Option<string>
    var log: seq<LogEntry>
    var state: NodeState
    var peers: seq<string>

    /** `new`: term 0, no vote, an empty log, a follower. */
    constructor(nodeId: string, peers: seq<string>)
      ensures this.nodeId == nodeId && this.peers == peers
      ensures currentTerm == 0 && votedFor.None? && log == [] && state == Follower
    {
      this.nodeId := nodeId;
      this.peers := peers;
      currentTerm := 0;
      votedFor := None;
      log := [];
      state := Follower;
    }

    function State(): RaftState
      reads this
    {
      RaftState(currentTerm, votedFor, log, state)
    }

    method HandleVoteRequest(req: VoteRequest) returns (resp: VoteResponse)
      modifies this
      ensures (State(), resp) == VoteStep(old(State()), req)
      ensures peers == old(peers)
    {
      if req.term > currentTerm {
        currentTerm := req.term;
        votedFor := None;
        state := Follower;
      }
      var granted: bool;
      if req.term < currentTerm {
        granted := false;
      } else if votedFor.Some? && votedFor != Some(req.candidateId) {
        granted := false;
      } else {
        var lastLogTerm := if log == [] then 0 else log[|log| - 1].term;
        granted := req.lastLogTerm > lastLogTerm || (req.lastLogTerm == lastLogTerm && req.lastLogIndex >= |log|);
      }
      if granted {
        votedFor := Some(req.candidateId);
      }
      resp := VoteResponse(currentTerm, granted);
    }

    method HandleAppendEntries(req: AppendEntriesRequest) returns (resp: AppendEntriesResponse)
      modifies this
      ensures (State(), resp) == AppendStep(old(State()), req)
      ensures peers == old(peers)
    {
      if req.term > currentTerm {
        currentTerm := req.term;
        votedFor := None;
      }
      if req.term < currentTerm {
        return AppendEntriesResponse(currentTerm, false, None);
      }
      state := Follower;
      var prev := req.prevLogIndex;
      if prev > 0 {
        if |log| < prev {
          return AppendEntriesResponse(currentTerm, false, Some(|log|));
        }
        if log[prev - 1].term != req.prevLogTerm {
          log := log[..prev - 1];
          return AppendEntriesResponse(currentTerm, false, Some(prev - 1));
        }
      }
      if req.entries != [] {
        log := log[..prev] + req.entries;
      }
      resp := AppendEntriesResponse(currentTerm, true, Some(|log|));
    }

    /**
     * `start_election`: a new term with a vote for itself as candidate;
     * every peer's vote is counted as granted, so the node always has a
     * majority and becomes leader.
     */
    method StartElection()
      modifies this
      ensures currentTerm == old(currentTerm) + 1
      ensures votedFor == Some(nodeId)
      ensures state == Leader
      ensures log == old(log) && peers == old(peers)
    {
      currentTerm := currentTerm + 1;
      votedFor := Some(nodeId);
      state := Candidate;
      var votes := 1;
      var i := 0;
      while i < |peers|
        invariant i <= |peers|
        invariant votes == 1 + i
      {
        votes := votes + 1;
        i := i + 1;
      }
      if votes > (|peers| + 1) / 2 {
        state := Leader;
      }
    }
  }

  /** A run of vote requests handled one after another, with the responses in order. */
  function VoteRun(s: RaftState, reqs: seq<VoteRequest>): (r: (RaftState, seq<VoteResponse>))
    ensures |r.1| == |reqs|
    decreases |reqs|
  {
    if reqs == [] then (s, [])
    else
      var (s1, v) := VoteStep(s, reqs[0]);
      var (s2, vs) := VoteRun(s1, reqs[1..]);
      (s2, [v] + vs)
  }

  /** Every response of a run carries a term no older than the node's term before it. */
  lemma {:induction false} RunTermsFrom(s: RaftState, reqs: seq<VoteRequest>)
    ensures forall i :: 0 <= i < |reqs| ==> VoteRun(s, reqs).1[i].term >= s.currentTerm
    decreases |reqs|
  {
    if reqs != [] {
      var (s1, v) := VoteStep(s, reqs[0]);
      RunTermsFrom(s1, reqs[1..]);
      assert VoteRun(s, reqs).1 == [v] + VoteRun(s1, reqs[1..]).1;
    }
  }

  /**
   * Once the node has voted for `c`, every vote it grants in that same term
   * during a run goes to `c` again.
   */
  lemma {:induction false} VoteKept(s: RaftState, reqs: seq<VoteRequest>, c: string)
    requires s.votedFor == Some(c)
    ensures forall i :: 0 <= i < |reqs| && VoteRun(s, reqs).1[i].voteGranted && VoteRun(s, reqs).1[i].term == s.currentTerm ==>
      reqs[i].candidateId == c
    decreases |reqs|
  {
    if reqs != [] {
      var (s1, v) := VoteStep(s, reqs[0]);
      var rest := VoteRun(s1, reqs[1..]).1;
      assert VoteRun(s, reqs).1 == [v] + rest;
      if reqs[0].term > s.currentTerm {
        RunTermsFrom(s1, reqs[1..]);
      } else {
        VoteKept(s1, reqs[1..], c);
      }
    }
  }

  /**
   * Election safety at one node (section 5.2): within one term the node
   * grants its vote to at most one candidate, however many requests arrive.
   */
  lemma {:induction false} OneVotePerTerm(s: RaftState, reqs: seq<VoteRequest>, i: nat, j: nat)
    requires i < j < |reqs|
    ensures var rs := VoteRun(s, reqs).1;
            rs[i].voteGranted && rs[j].voteGranted && rs[i].term == rs[j].term ==> reqs[i].candidateId == reqs[j].candidateId
    decreases i
  {
    var (s1, v) := VoteStep(s, reqs[0]);
    var rest := VoteRun(s1, reqs[1..]).1;
    assert VoteRun(s, reqs).1 == [v] + rest;
    if i > 0 {
      OneVotePerTerm(s1, reqs[1..], i - 1, j - 1);
    } else if v.voteGranted {
      VoteKept(s1, reqs[1..], reqs[0].candidateId);
      assert rest[j - 1] == VoteRun(s, reqs).1[j];
    }
  }

  /** Terms never go backwards, whichever handler runs. */
  lemma TermsMonotone(s: RaftState, v: VoteRequest, a: AppendEntriesRequest)
    ensures VoteStep(s, v).0.currentTerm >= s.currentTerm
    ensures AppendStep(s, a).0.currentTerm >= s.currentTerm
    ensures VoteStep(s, v).1.term >= v.term || !VoteStep(s, v).1.voteGranted
  {
  }

  /**
   * The log-matching step (section 5.3): after a successful append the
   * entry at `prevLogIndex` has the leader's `prevLogTerm` and the new
   * entries follow it.
   */
  lemma AppendMatchesLeader(s: RaftState, req: AppendEntriesRequest)
    requires AppendStep(s, req).1.success
    ensures var log := AppendStep(s, req).0.log;
            req.prevLogIndex <= |log|
            && (req.prevLogIndex > 0 ==> log[req.prevLogIndex - 1].term == req.prevLogTerm)
            && (req.entries != [] ==> log[req.prevLogIndex..] == req.entries)
  {
    var log := AppendStep(s, req).0.log;
    if req.prevLogIndex > 0 && req.entries != [] {
      assert log[req.prevLogIndex - 1] == s.log[..req.prevLogIndex][req.prevLogIndex - 1];
    }
  }

  /** A refused append never adds entries: the log afterwards is a prefix of the log before. */
  lemma RefusedAppendShrinksOnly(s: RaftState, req: AppendEntriesRequest)
    requires !AppendStep(s, req).1.success
    ensures var log := AppendStep(s, req).0.log;
            |log| <= |s.log| && log == s.log[..|log|]
  {
  }

  /**
   * The handler replaces everything after `prevLogIndex` whenever entries
   * arrive, whether or not they conflict: a delayed request carrying one
   * entry that the log already holds cuts a three-entry log to two.
   */
  lemma StaleAppendShortens(e1: LogEntry, e2: LogEntry, e3: LogEntry)
    requires e1.term == 1 && e2.term == 1 && e3.term == 1
    ensures var s := RaftState(1, None, [e1, e2, e3], Follower);
            var req := AppendEntriesRequest(1, "leader", 1, 1, [e2], 0);
            AppendStep(s, req).1.success && AppendStep(s, req).0.log == [e1, e2]
  {
    var s := RaftState(1, None, [e1, e2, e3], Follower);
    assert s.log[..1] == [e1];
  }
}
