/** Messages, certificates and configuration of the PBFT replica. */
module PbftTypes {

  datatype Option<+T> = None | Some(value: T)

  /** A batch digest; `Null` is the empty string that stands for the null request. */
  datatype Digest = Null | Of(payload: string)

  datatype RequestBatch = RequestBatch(payload: string)

  /** An idealised collision-free hash: injective, and never the null digest. */
  function Hash(b: RequestBatch): Digest {
    Of(b.payload)
  }

  type StateId = string

  datatype PrePrepare = PrePrepare(v: nat, n: nat, d: Digest, batch: RequestBatch, sender: nat)
  datatype Prepare = Prepare(v: nat, n: nat, d: Digest, sender: nat)
  datatype Commit = Commit(v: nat, n: nat, d: Digest, sender: nat)
  datatype Checkpoint = Checkpoint(n: nat, sender: nat, id: StateId)

  /** An entry of a P or Q set. */
  datatype PQ = PQ(n: nat, d: Digest, v: nat)

  /** An entry of a C set. */
  datatype CEntry = CEntry(n: nat, id: StateId)

  datatype ViewChange = ViewChange(v: nat, h: nat, cset: seq<CEntry>, pset: seq<PQ>, qset: seq<PQ>, sender: nat)
  datatype NewView = NewView(v: nat, vset: seq<ViewChange>, xset: map<nat, Digest>, sender: nat)

  datatype Msg =
    | BatchMsg(batch: RequestBatch)
    | PrePrepareMsg(pp: PrePrepare)
    | PrepareMsg(prepare: Prepare)
    | CommitMsg(commit: Commit)
    | CheckpointMsg(chkpt: Checkpoint)
    | ViewChangeMsg(vc: ViewChange)
    | NewViewMsg(nv: NewView)
    | FetchMsg(d: Digest, sender: nat)

  /** Key of the certificate store. */
  datatype Slot = Slot(v: nat, n: nat)

  /** Key of the Q set. */
  datatype QKey = QKey(d: Digest, n: nat)

  /** Key of the view-change store. */
  datatype VcKey = VcKey(v: nat, id: nat)

  datatype Cert = Cert(digest: Digest, prePrepare: Option<PrePrepare>, sentPrepare: bool,
                       prepare: seq<Prepare>, sentCommit: bool, commit: seq<Commit>)

  const EmptyCert: Cert := Cert(Null, None, false, [], false, [])

  /** What the constructor reads from the configuration, and the constraints it puts on it
      (K = 0 makes the first division by K stop the process). */
  datatype Config = Config(N: nat, f: nat, K: nat, logMultiplier: nat, viewChangePeriod: nat) {
    predicate Valid() {
      && 3 * f + 1 <= N
      && 0 < K
      && 2 <= logMultiplier
    }

    function L(): nat {
      logMultiplier * K
    }

    /** The smallest size that makes two quorums share a correct replica. */
    function IntersectionQuorum(): nat {
      (N + f + 2) / 2
    }

    function AllCorrectReplicasQuorum(): int {
      N - f
    }

    function Primary(v: nat): nat
      requires Valid()
    {
      v % N
    }

    /** The greatest multiple of the checkpoint period that is not above n. */
    function Floor(n: nat): (r: nat)
      requires Valid()
      ensures r <= n < r + K
    {
      if n < K then 0 else K + Floor(n - K)
    }

    predicate IsMultiple(n: nat)
      requires Valid()
    {
      Floor(n) == n
    }

    /** The last number of a view that starts after this one: the period, counted in checkpoints. A
        period of zero means that views do not end by themselves. */
    function ViewEnd(start: nat): Option<nat>
      requires Valid()
    {
      if viewChangePeriod == 0 then None else Some(Floor(start) + viewChangePeriod * K)
    }
  }
}
