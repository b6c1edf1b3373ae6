/** The identifiers, records and messages shared by every part of the model. */
module Types {

  type NodeId = nat
  type Term = nat
  type Offset = nat
  type byte = b: int | 0 <= b < 256
  type bytes = seq<byte>

  datatype Option<+T> = None | Some(value: T)

  datatype Role = Unattached | Follower | Candidate | Leader

  datatype EntryType = Command | LeaderChangeMessage | VotersRecord

  datatype LogEntry = LogEntry(offset: Offset, term: Term, entryType: EntryType, payload: bytes)

  datatype VoterInfo = VoterInfo(nodeId: NodeId, endpoint: string)

  datatype VoteRequest = VoteRequest(
    term: Term, candidateId: NodeId, lastLogOffset: Offset, lastLogTerm: Term, isPreVote: bool)

  datatype VoteResponse = VoteResponse(term: Term, voteGranted: bool, isPreVote: bool)

  /** The identifiers of a voter list. */
  function Ids(voters: seq<VoterInfo>): set<NodeId> {
    set i | 0 <= i < |voters| :: voters[i].nodeId
  }

  predicate Duplicates(voters: seq<VoterInfo>) {
    exists i, j :: 0 <= i < j < |voters| && voters[i].nodeId == voters[j].nodeId
  }

  function Max(a: nat, b: nat): nat { if a < b then b else a }

  function Min(a: nat, b: nat): nat { if a < b then a else b }

  /** How up to date a log is: its last term first, then its last offset. */
  datatype Freshness = Freshness(term: Term, offset: Offset)

  predicate NoFresherThan(a: Freshness, b: Freshness) {
    a.term < b.term || (a.term == b.term && a.offset <= b.offset)
  }

  /** The voter list of the latest record among some entries that can be decoded. */
  function LatestVoters(decode: bytes -> Option<seq<VoterInfo>>, es: seq<LogEntry>): Option<seq<VoterInfo>> {
    if es == [] then None
    else
      var e := es[|es| - 1];
      if e.entryType == VotersRecord && decode(e.payload).Some? then decode(e.payload)
      else LatestVoters(decode, es[..|es| - 1])
  }

  /** How often a value occurs. */
  function Occurrences<T(==)>(s: seq<T>, x: T): nat {
    if s == [] then 0
    else Occurrences(s[..|s| - 1], x) + if s[|s| - 1] == x then 1 else 0
  }

  /** Writing at a position past the end fills the gap with zeros. */
  function Overwrite(file: bytes, position: nat, data: bytes): bytes {
    var base := if position <= |file| then file[..position] else file + seq(position - |file|, _ => 0 as byte);
    var end := position + |data|;
    base + data + (if end <= |file| then file[end..] else [])
  }
}
