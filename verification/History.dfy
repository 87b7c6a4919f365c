/** The bookkeeping behind the safety proof: for each term the leader it had and
    that leader's whole log, every vote and acknowledgement ever given, every
    commit ever made, and every server's whole (uncompacted) log. Nothing here
    is read by the servers. */
module History {
  import opened KvMachine
  import opened RaftTypes
  import opened RaftHandlers
  import opened Cluster

  /** One leader's term: the log it was elected with, and that log as it grew. */
  datatype Reign = Reign(leader: int, start: seq<Entry>, log: seq<Entry>, voters: set<int>)

  datatype Key = Key(who: int, term: int)

  /** A vote, with the voter's log at that time; `early` if the term had no
      leader yet. */
  datatype Vote = Vote(candidate: int, log: seq<Entry>, early: bool)

  /** A leader of `term` found `index` matched on `quorum`. */
  datatype Commitment = Commitment(term: int, index: int, quorum: set<int>)

  datatype History = History(
    logs: seq<seq<Entry>>, pos: seq<int>,
    reigns: map<int, Reign>, votes: map<Key, Vote>, acks: map<Key, nat>, commits: set<Commitment>)

  // ------------------------------------------------------------------- logs

  function TermAt(f: seq<Entry>, k: int): int {
    if 1 <= k <= |f| then f[k - 1].term else 0
  }

  function EndTerm(f: seq<Entry>): int { TermAt(f, |f|) }

  predicate UpToDate(a: seq<Entry>, b: seq<Entry>) {
    EndTerm(b) < EndTerm(a) || (EndTerm(b) == EndTerm(a) && |b| <= |a|)
  }

  /** Terms are positive and never decrease. */
  predicate Ordered(f: seq<Entry>) {
    (forall i :: 0 <= i < |f| ==> 1 <= f[i].term) &&
    (forall i, j :: 0 <= i <= j < |f| ==> f[i].term <= f[j].term)
  }

  predicate TermsBelow(f: seq<Entry>, t: int) {
    forall i :: 0 <= i < |f| ==> f[i].term < t
  }

  /** The log up to entry `i` is the log of the leader that made entry `i`. */
  predicate Backed(h: History, f: seq<Entry>, i: int)
    requires 0 <= i < |f|
  {
    f[i].term in h.reigns && f[..i + 1] <= h.reigns[f[i].term].log
  }

  predicate ValidLog(h: History, f: seq<Entry>) {
    forall i :: 0 <= i < |f| ==> Backed(h, f, i)
  }

  /** What a follower's log becomes when it takes over `s`. */
  function Adopt(f: seq<Entry>, s: seq<Entry>): seq<Entry> {
    if s <= f then f else s
  }

  function Items(f: seq<Entry>): (r: seq<Item>)
    ensures |r| == |f| && forall i :: 0 <= i < |f| ==> r[i] == f[i].item
  {
    if f == [] then [] else Items(f[..|f| - 1]) + [f[|f| - 1].item]
  }

  /** The machine state that the first `k` entries stand for. */
  function StateAt(f: seq<Entry>, k: int): Kv
    requires 0 <= k <= |f|
  {
    Fold(Items(f[..k]))
  }

  // ---------------------------------------------------------------- quorums

  predicate IsQuorum(q: set<int>, n: int) {
    q <= Ids(n) && |q| >= n / 2 + 1
  }

  function Acked(h: History, who: int, t: int): nat {
    if Key(who, t) in h.acks then h.acks[Key(who, t)] else 0
  }

  /** `s` is a prefix of what some leader of a term up to `t` committed. */
  predicate Committed(h: History, s: seq<Entry>, t: int) {
    s == [] || exists c :: c in h.commits && CommittedBy(h, s, t, c)
  }

  predicate CommittedBy(h: History, s: seq<Entry>, t: int, c: Commitment) {
    c.term <= t && c.term in h.reigns && 0 <= c.index <= |h.reigns[c.term].log| &&
    s <= h.reigns[c.term].log[..c.index]
  }

  // ------------------------------------------------- what the history keeps

  /** Some leader of a term strictly between `t` and `u` was elected without
      the first `m` entries of the leader of `t`. */
  ghost predicate Overwritten(h: History, t: int, m: int, u: int)
    requires t in h.reigns && 0 <= m <= |h.reigns[t].log|
  {
    exists x :: t < x < u && x in h.reigns && !(h.reigns[t].log[..m] <= h.reigns[x].start)
  }

  /** A log that once held `k` entries of the leader of `t` still holds every
      entry of term `t` among them, unless a leader before term `u` lacked it. */
  ghost predicate Kept(h: History, f: seq<Entry>, t: int, k: int, u: int)
    requires t in h.reigns && k <= |h.reigns[t].log|
  {
    forall m :: 1 <= m <= k && h.reigns[t].log[m - 1].term == t ==>
      h.reigns[t].log[..m] <= f || Overwritten(h, t, m, u)
  }

  ghost predicate ReignInv(h: History, n: int, t: int)
    requires t in h.reigns
  {
    var r := h.reigns[t];
    1 <= t && 0 <= r.leader < n && r.start <= r.log &&
    Ordered(r.log) && TermsBelow(r.start, t) && ValidLog(h, r.log) &&
    (forall i :: |r.start| <= i < |r.log| ==> r.log[i].term == t) &&
    IsQuorum(r.voters, n) &&
    (forall v :: v in r.voters ==>
      VotedFor(h, v, t, r.leader) && h.votes[Key(v, t)].early && UpToDate(r.start, h.votes[Key(v, t)].log))
  }

  predicate VotedFor(h: History, v: int, t: int, candidate: int) {
    Key(v, t) in h.votes && h.votes[Key(v, t)].candidate == candidate
  }

  predicate AckInv(h: History, k: Key)
    requires k in h.acks
  {
    k.term in h.reigns && h.acks[k] <= |h.reigns[k.term].log|
  }

  ghost predicate VoteInv(h: History, n: int, k: Key)
    requires k in h.votes
  {
    var v := h.votes[k];
    1 <= k.term && 0 <= v.candidate < n && ValidLog(h, v.log) && Ordered(v.log) && TermsBelow(v.log, k.term) &&
    (v.early || k.term in h.reigns) &&
    VotedFor(h, v.candidate, k.term, v.candidate) &&
    UpToDate(h.votes[Key(v.candidate, k.term)].log, v.log) &&
    (v.early ==> forall a :: a in h.acks && a.who == k.who && a.term < k.term ==>
                   AckInv(h, a) && Kept(h, v.log, a.term, h.acks[a], k.term))
  }

  predicate CommitmentInv(h: History, n: int, c: Commitment) {
    c.term in h.reigns && 1 <= c.index <= |h.reigns[c.term].log| &&
    h.reigns[c.term].log[c.index - 1].term == c.term &&
    IsQuorum(c.quorum, n) &&
    forall v :: v in c.quorum ==> Acked(h, v, c.term) >= c.index
  }

  ghost predicate HistoryInv(h: History, n: int) {
    |h.logs| == n && |h.pos| == n &&
    (forall t :: t in h.reigns ==> ReignInv(h, n, t)) &&
    (forall k :: k in h.acks ==> AckInv(h, k)) &&
    (forall k :: k in h.votes ==> VoteInv(h, n, k)) &&
    (forall c :: c in h.commits ==> CommitmentInv(h, n, c))
  }

  // --------------------------------------------------- what each peer keeps

  /** The compacted peer state stands for the whole log `f`. */
  predicate Represents(s: Node, f: seq<Entry>) {
    |s.log| >= 1 && 0 <= s.snapIndex && |f| == LastIndex(s) &&
    s.log[1..] == f[s.snapIndex..] &&
    s.snapTerm == TermAt(f, s.snapIndex) &&
    s.log[0].term == (if s.snapIndex == 0 then -1 else s.snapTerm) &&
    s.snapshot == (if s.snapIndex == 0 then NoImage else Image(StateAt(f, s.snapIndex)))
  }

  /** Log and snapshot in memory are the saved ones; term and vote may be ahead
      of the saved ones only by an unsaved term in which no vote was cast. */
  predicate SavedInv(s: Node) {
    var d := Recovered(s.disk);
    d.log == s.log && d.snapIndex == s.snapIndex && d.snapTerm == s.snapTerm && d.snapshot == s.snapshot &&
    0 <= d.term <= s.term &&
    (d.term == s.term ==> d.votedFor == s.votedFor) &&
    (d.term < s.term ==> s.votedFor == -1 && s.role == Follower)
  }

  predicate LogInv(h: History, f: seq<Entry>, term: int) {
    ValidLog(h, f) && Ordered(f) && TermsBelow(f, term + 1)
  }

  predicate VoterInv(h: History, i: int, term: int, votedFor: int) {
    forall k :: k in h.votes && k.who == i ==>
      k.term <= term && (k.term == term ==> h.votes[k].candidate == votedFor)
  }

  ghost predicate AckerInv(h: History, i: int, f: seq<Entry>, term: int) {
    forall k :: k in h.acks && k.who == i ==>
      AckInv(h, k) && k.term <= term && Kept(h, f, k.term, h.acks[k], term + 1)
  }

  /** A match index is backed by an acknowledgement or by a commit. */
  predicate MatchInv(h: History, t: int, peer: int, k: int)
    requires t in h.reigns
  {
    0 <= k <= |h.reigns[t].log| && (k <= Acked(h, peer, t) || Committed(h, h.reigns[t].log[..k], t))
  }

  predicate LeadingInv(h: History, i: int, s: Node, f: seq<Entry>) {
    Recovered(s.disk).term == s.term && s.term in h.reigns &&
    h.reigns[s.term].leader == i && h.reigns[s.term].log == f && Acked(h, i, s.term) == |f| &&
    (forall p :: 0 <= p < |s.nextIndex| ==> 1 <= s.nextIndex[p] <= |f| + 1) &&
    (forall p :: 0 <= p < |s.matchIndex| ==> MatchInv(h, s.term, p, s.matchIndex[p]))
  }

  predicate Tally(h: History, i: int, s: Node, granted: set<int>) {
    granted <= Ids(s.peers) && granted !! s.poll.waiting && i !in granted && |granted| + 1 == s.poll.votes &&
    forall v :: v in granted ==> VotedFor(h, v, s.term, i)
  }

  ghost predicate RunningInv(h: History, i: int, s: Node, f: seq<Entry>) {
    Recovered(s.disk).term == s.term && s.votedFor == i && s.poll.waiting <= Ids(s.peers) - {i} &&
    VotedFor(h, i, s.term, i) &&
    (s.term in h.reigns ==> h.reigns[s.term].leader != i) &&
    (s.term !in h.reigns ==> h.votes[Key(i, s.term)].log == f) &&
    exists granted :: Tally(h, i, s, granted)
  }

  predicate ReignedInv(h: History, i: int, term: int) {
    forall t :: t in h.reigns && h.reigns[t].leader == i ==> t <= term
  }

  predicate CommitInv(h: History, s: Node, f: seq<Entry>) {
    0 <= s.snapIndex <= s.commitIndex <= |f| && 0 <= s.lastApplied <= s.commitIndex &&
    Committed(h, f[..s.commitIndex], Recovered(s.disk).term)
  }

  ghost predicate NodeInv(h: History, n: int, i: int, s: Node, f: seq<Entry>) {
    s.me == i && s.peers == n && |s.nextIndex| == n == |s.matchIndex| &&
    Represents(s, f) && SavedInv(s) &&
    LogInv(h, f, Recovered(s.disk).term) &&
    VoterInv(h, i, Recovered(s.disk).term, Recovered(s.disk).votedFor) &&
    AckerInv(h, i, f, Recovered(s.disk).term) &&
    ReignedInv(h, i, Recovered(s.disk).term) &&
    CommitInv(h, s, f) &&
    (s.role == Leader ==> LeadingInv(h, i, s, f)) &&
    (s.role == Candidate ==> RunningInv(h, i, s, f))
  }

  // -------------------------------------------- what the reader loop keeps

  /** The undelivered messages continue the stream exactly where the machine
      stands: either the next commands in order, or one snapshot further on. */
  predicate BatchInv(batch: seq<ApplyMsg>, f: seq<Entry>, p: int, upTo: int)
    requires 0 <= p <= upTo <= |f|
  {
    if batch != [] && batch[0].SnapshotMsg? then
      p < upTo && batch == [SnapshotMsg(upTo, Image(StateAt(f, upTo)))]
    else
      |batch| == upTo - p &&
      forall j :: 0 <= j < |batch| ==> batch[j] == CommandMsg(p + 1 + j, f[p + j].item)
  }

  predicate ServiceInv(s: Server, f: seq<Entry>, p: int) {
    0 <= p <= s.rf.lastApplied <= |f| && s.kv == StateAt(f, p) &&
    (s.applied == 0 || (0 <= s.applied <= p && s.kv == StateAt(f, s.applied))) &&
    BatchInv(s.batch, f, p, s.rf.lastApplied)
  }

  // --------------------------------------------------- what messages promise

  predicate VoteReqInv(h: History, n: int, v: VoteArgs) {
    0 <= v.candidate < n && VotedFor(h, v.candidate, v.term, v.candidate) &&
    v.lastIndex == |h.votes[Key(v.candidate, v.term)].log| &&
    v.lastTerm == EndTerm(h.votes[Key(v.candidate, v.term)].log)
  }

  predicate AppendReqInv(h: History, n: int, a: AppendArgs) {
    a.term in h.reigns && h.reigns[a.term].leader == a.leader && 0 <= a.prev &&
    a.prev + |a.entries| <= |h.reigns[a.term].log| &&
    a.entries == h.reigns[a.term].log[a.prev..a.prev + |a.entries|] &&
    (a.prev >= 1 ==> a.prevTerm == h.reigns[a.term].log[a.prev - 1].term) &&
    0 <= a.commit <= a.prev + |a.entries| &&
    Committed(h, h.reigns[a.term].log[..a.commit], a.term)
  }

  predicate SnapReqInv(h: History, n: int, sn: SnapArgs) {
    sn.term in h.reigns && h.reigns[sn.term].leader == sn.leader &&
    1 <= sn.index <= |h.reigns[sn.term].log| &&
    sn.snapTerm == h.reigns[sn.term].log[sn.index - 1].term &&
    sn.image == Image(StateAt(h.reigns[sn.term].log, sn.index)) &&
    Committed(h, h.reigns[sn.term].log[..sn.index], sn.term)
  }

  /** A rejection names a spot where the follower's log differs from the
      request: its end, or an entry of another term at the requested index. */
  predicate RejectionInv(h: History, a: AppendArgs, r: AppendReply) {
    if r.xTerm == -1 then 1 <= r.xLen <= a.prev
    else if r.xTerm == 0 then r.xIndex == 0
    else
      1 <= r.xIndex <= a.prev && r.xTerm in h.reigns && a.prev <= |h.reigns[r.xTerm].log| &&
      h.reigns[r.xTerm].log[a.prev - 1].term == r.xTerm && a.prevTerm != r.xTerm
  }

  predicate MsgInv(h: History, n: int, m: Msg) {
    match m
    case VoteReq(v) => VoteReqInv(h, n, v)
    case VoteRep(from, to, t, vr) => vr.granted ==> 0 <= from < n && VotedFor(h, from, t, to)
    case AppendReq(to, a) => AppendReqInv(h, n, a) && to != a.leader
    case AppendRep(from, a, ar) =>
      AppendReqInv(h, n, a) && from != a.leader &&
      (if ar.success then Acked(h, from, a.term) >= a.prev + |a.entries| else RejectionInv(h, a, ar))
    case SnapReq(to, sn) => SnapReqInv(h, n, sn) && to != sn.leader
    case SnapRep(from, sn, t) => SnapReqInv(h, n, sn) && from != sn.leader
  }

  ghost predicate Inv(w: World, h: History) {
    HistoryInv(h, |w.servers|) &&
    (forall i :: 0 <= i < |w.servers| ==>
       NodeInv(h, |w.servers|, i, w.servers[i].rf, h.logs[i]) && ServiceInv(w.servers[i], h.logs[i], h.pos[i])) &&
    (forall m :: m in w.net ==> MsgInv(h, |w.servers|, m))
  }

  // ------------------------------------------------------------ how it grows

  /** A later history only adds: terms, entries at the end of a leader's log,
      votes, acknowledgements and commits. */
  predicate Grows(h: History, h': History) {
    |h'.logs| == |h.logs| && |h'.pos| == |h.pos| &&
    (forall t :: t in h.reigns ==>
       t in h'.reigns && h'.reigns[t].leader == h.reigns[t].leader && h'.reigns[t].start == h.reigns[t].start &&
       h'.reigns[t].voters == h.reigns[t].voters && h.reigns[t].log <= h'.reigns[t].log) &&
    (forall k :: k in h.votes ==> k in h'.votes && h'.votes[k] == h.votes[k]) &&
    (forall k :: k in h.acks ==> k in h'.acks && h.acks[k] <= h'.acks[k]) &&
    h.commits <= h'.commits
  }

  /** Everything that was added concerns server `i`. */
  predicate GrowsBy(h: History, h': History, i: int) {
    Grows(h, h') &&
    (forall j :: 0 <= j < |h.logs| && j != i ==> h'.logs[j] == h.logs[j]) &&
    (forall j :: 0 <= j < |h.pos| && j != i ==> h'.pos[j] == h.pos[j]) &&
    (forall t :: t in h'.reigns && h'.reigns[t].leader != i ==> t in h.reigns && h'.reigns[t] == h.reigns[t]) &&
    (forall k :: k in h'.votes && k.who != i ==> k in h.votes) &&
    (forall k :: k in h'.acks && k.who != i ==> k in h.acks && h'.acks[k] == h.acks[k])
  }

  /** No entry is in a leader's log that was not in some log before. */
  predicate NoNewEntries(h: History, h': History) {
    forall t :: t in h'.reigns ==> (t in h.reigns && h'.reigns[t].log == h.reigns[t].log) || h'.reigns[t].log in h.logs
  }

  /** Growth in which no entry is made and no machine moves. */
  predicate Steady(h: History, h': History) {
    Grows(h, h') && h'.pos == h.pos && NoNewEntries(h, h')
  }
}
