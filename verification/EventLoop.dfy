/** The event loop object: handlers change its state, collect actions in a batch and then run the batch. */
module EventLoop {
  import opened Types
  import opened LogSpec
  import opened EventLoopSpec
  import Quorum

  class EventLoop {
    const id: NodeId
    var state: State
    var quorumStore: Option<QuorumRecord>
    var logStore: Log
    var sent: seq<Packet>

    ghost function Disk(): Stores
      reads this
    {
      Stores(quorumStore, logStore)
    }

    /** The whole reaction took place: the state is its state and its batch was carried out. */
    ghost predicate Did(r: Reaction, disk: Stores, before: seq<Packet>)
      reads this
    {
      state == r.state && Disk() == Execute(disk, r.batch) && sent == before + Sends(r.batch)
    }

    constructor (id: NodeId, state: State, stores: Stores)
      ensures this.id == id && this.state == state && Disk() == stores && sent == []
    {
      this.id, this.state := id, state;
      quorumStore, logStore, sent := stores.quorum, stores.log, [];
    }

    method ExecuteBatch(batch: seq<Action>)
      modifies this`quorumStore, this`logStore, this`sent
      ensures Disk() == Execute(old(Disk()), batch) && sent == old(sent) + Sends(batch)
    {
      for i := 0 to |batch|
        invariant Disk() == Execute(old(Disk()), batch[..i]) && sent == old(sent) + Sends(batch[..i])
      {
        assert batch[..i + 1][..i] == batch[..i];
        match batch[i] {
          case Persist(record) => quorumStore := Some(record);
          case AppendLog(es) => logStore := logStore.Append(es);
          case Send(packet) => sent := sent + [packet];
        }
      }
      assert batch[..|batch|] == batch;
    }

    method MaybeStepDown(term: Term) returns (down: bool)
      modifies this`state
      ensures down <==> term > old(state).term
      ensures state == StepDown(old(state), term)
    {
      down := term > state.term;
      if down { state := BecomeFollower(state, term); }
    }

    method StartElection(batch: seq<Action>) returns (out: seq<Action>)
      modifies this`state
      ensures var r := Stand(id, old(state)); state == r.state && out == batch + r.batch
    {
      state := BecomeCandidate(id, state);
      out := batch + [Persist(QuorumRecord(state.term, state.votedFor, None, 0))];
      var lastLogOffset := if state.logEnd > 0 then state.logEnd - 1 else 0;
      for i := 0 to |state.voters|
        invariant state == BecomeCandidate(id, old(state))
        invariant out == batch + ([Persist(QuorumRecord(state.term, state.votedFor, None, 0))] + Requests(id, state, state.voters[..i]))
      {
        assert state.voters[..i + 1][..i] == state.voters[..i];
        if state.voters[i].nodeId != id {
          var req := VoteRequest(state.term, id, lastLogOffset, state.lastLogTerm, false);
          out := out + [Send(Packet(state.voters[i].nodeId, Envelope(state.clusterId, 0, id, VoteRequested(req))))];
        }
      }
      assert state.voters[..|state.voters|] == state.voters;
    }

    method HandleVoteRequest(req: VoteRequest, batch: seq<Action>) returns (out: seq<Action>)
      requires !req.isPreVote
      modifies this`state
      ensures var r := OnVoteRequest(id, old(state), req); state == r.state && out == batch + r.batch
    {
      var _ := MaybeStepDown(req.term);
      var granted := false;
      if state.role == Leader || req.term < state.term || (state.votedFor.Some? && state.votedFor != Some(req.candidateId)) {
      } else {
        var ours := if state.logEnd > 0 then state.logEnd - 1 else 0;
        var logOk := req.lastLogTerm > state.lastLogTerm
                     || (req.lastLogTerm == state.lastLogTerm && req.lastLogOffset >= ours)
                     || state.logEnd == 0;
        if logOk {
          state := state.(votedFor := Some(req.candidateId));
          granted := true;
        }
      }
      out := batch;
      if granted {
        out := out + [Persist(QuorumRecord(state.term, state.votedFor, state.leaderId, 0))];
      }
      out := out + [Send(Packet(req.candidateId,
        Envelope(state.clusterId, 0, id, VoteAnswered(VoteResponse(state.term, granted, false)))))];
    }

    method HandlePreVoteRequest(req: VoteRequest, batch: seq<Action>) returns (out: seq<Action>)
      requires req.isPreVote
      ensures out == batch + OnPreVote(id, state, req).batch
    {
      var would := false;
      if req.term >= state.term {
        var ours := if state.logEnd > 0 then state.logEnd - 1 else 0;
        would := req.lastLogTerm > state.lastLogTerm
                 || (req.lastLogTerm == state.lastLogTerm && req.lastLogOffset >= ours)
                 || state.logEnd == 0;
      }
      out := batch + [Send(Packet(req.candidateId,
        Envelope(state.clusterId, 0, id, VoteAnswered(VoteResponse(state.term, would, true)))))];
    }

    method RecordVote(voter: NodeId) returns (majority: bool)
      modifies this`state
      ensures !old(state).role.Candidate? ==> state == old(state) && !majority
      ensures old(state).role.Candidate? ==>
        && state == old(state).(votes := old(state).votes + {voter})
        && (majority <==> |state.votes| >= Majority(state))
    {
      if state.role != Candidate { return false; }
      state := state.(votes := state.votes + {voter});
      majority := |state.votes| >= |state.voters| / 2 + 1;
    }

    /** The transition to leader, with the actions that make it durable. */
    method OnBecomeLeader(batch: seq<Action>) returns (out: seq<Action>)
      modifies this`state
      ensures var r := Elected(id, old(state)); state == r.state && out == batch + r.batch
    {
      state := state.(role := Leader, leaderId := Some(id));
      out := batch + [Persist(QuorumRecord(state.term, state.votedFor, Some(id), state.term))];
      var entry := LogEntry(state.logEnd, state.term, LeaderChangeMessage, []);
      state := state.(logEnd := state.logEnd + 1);
      state := state.(lastLogTerm := state.term);
      out := out + [AppendLog([entry])];
    }

    method HandleVoteResponse(source: NodeId, resp: VoteResponse, steppedDown: bool, batch: seq<Action>) returns (out: seq<Action>)
      modifies this`state
      ensures var r := OnVoteResponse(id, old(state), source, resp, steppedDown); state == r.state && out == batch + r.batch
    {
      out := batch;
      if resp.isPreVote {
        if resp.voteGranted && resp.term == state.term { state := state.(preVotes := state.preVotes + {source}); }
      } else if !steppedDown && state.role == Candidate && resp.voteGranted && resp.term == state.term {
        var known := Quorum.AnyVoter(state.voters, source);
        if known {
          var majority := RecordVote(source);
          if majority { out := OnBecomeLeader(out); }
        }
      }
    }

    method HandleCheckQuorum(passed: bool)
      modifies this
      ensures Did(OnCheckQuorum(old(state), passed), old(Disk()), old(sent))
    {
      if !passed {
        var preserved := state.votedFor;
        state := BecomeFollower(state, state.term);
        state := state.(votedFor := preserved);
        ExecuteBatch([Persist(QuorumRecord(state.term, preserved, None, 0))]);
      }
    }

    method HandleElectionTimeout()
      modifies this
      ensures Did(OnElectionTimeout(id, old(state)), old(Disk()), old(sent))
    {
      hide Execute, Sends, Requests;
      var voter := Quorum.AnyVoter(state.voters, id);
      if !voter {
        Nothing(Disk());
        return;
      }
      var batch := StartElection([]);
      if |state.voters| == 1 { batch := OnBecomeLeader(batch); }
      assert batch == OnElectionTimeout(id, old(state)).batch;
      ExecuteBatch(batch);
    }

    method HandleRpc(env: Envelope)
      modifies this
      ensures Did(OnRpc(id, old(state), env), old(Disk()), old(sent))
    {
      hide Execute, Sends, OnVoteRequest, OnVoteResponse;
      Nothing(Disk());
      if env.clusterId != state.clusterId { return; }
      var batch: seq<Action> := [];
      var down := false;
      if !IsPreVote(env.payload) {
        down := MaybeStepDown(EffectiveTerm(env));
        if down { batch := batch + [Persist(QuorumRecord(state.term, None, None, 0))]; }
      }
      match env.payload {
        case VoteRequested(req) =>
          if req.isPreVote { batch := HandlePreVoteRequest(req, batch); }
          else { batch := HandleVoteRequest(req, batch); }
        case VoteAnswered(resp) => batch := HandleVoteResponse(env.source, resp, down, batch);
        case _ =>
      }
      assert batch == OnRpc(id, old(state), env).batch;
      ExecuteBatch(batch);
    }
  }

  lemma {:induction false} Nothing(s: Stores)
    ensures Execute(s, []) == s && Sends([]) == []
  {
  }
}
