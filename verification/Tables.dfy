/**
 The durable tables the download ledger lives in, and what it counts from them.

 Identifiers are opaque and only compared, so permits, reservations, requests,
 infohashes and filesystems are numbered. A permit's secret token and its id
 name the same row.
 */
module Tables {
  import opened Options
  import opened Sums

  type PermitId = nat
  type ReservationId = nat
  type RequestId = nat
  type InfoHash = nat
  type Digest = nat
  type FilesystemId = nat

  datatype Category = Radarr | Sonarr | OtherCategory

  /** The scope key of a permit; WholeItem is SQL NULL. */
  datatype Scope = WholeItem | Episode(season: nat, number: nat) | Pack(season: nat) | OtherScope(text: string)

  datatype MediaKey =
    | MovieMedia(tmdb: nat)
    | SeasonMedia(tmdb: nat, season: nat)
    | EpisodeMedia(tmdb: nat, scope: Scope)

  datatype State = Authorized | Dispatching | Unknown | Confirmed | Superseded | ProbeRejected | Revoked

  /** The JSON an upstream add returned, or the one reconciliation writes. */
  datatype Reply = Accepted(infohash: InfoHash) | OtherReply(body: string)

  datatype PoolId = Ssd | Hdd

  datatype Permit = Permit(
    infohash: InfoHash,
    digest: Option<Digest>,
    category: Category,
    reservation: ReservationId,
    scope: Scope,
    files: seq<string>,
    budget: nat,
    expires: int,
    state: State,
    reply: Option<Reply>,
    parent: Option<PermitId>,
    quality: Option<seq<int>>,
    pool: PoolId,
    filesystem: FilesystemId)
  {
    predicate Live() {
      state in {Authorized, Dispatching, Unknown, Confirmed}
    }

    /** What the two slot indexes key on: a live row that is nobody's probe. */
    predicate Primary() {
      Live() && parent.None?
    }

    predicate SameSlot(other: Permit) {
      reservation == other.reservation && scope == other.scope
    }
  }

  datatype ReservationState = Reserved | Downloading | WaitingEpisodes | Validating | Imported | CancelledReservation

  datatype Reservation = Reservation(request: RequestId, media: MediaKey, state: ReservationState, budget: nat) {
    predicate Active() {
      state in {Reserved, Downloading, WaitingEpisodes}
    }
  }

  datatype RequestState = Requested | ReservedRequest | CancelRequested | CancelledRequest | Available

  datatype Handover = Handover(parent: PermitId, pending: bool)

  datatype ImportState = Sending | SendingCopy | Submitted | SubmittedCopy | Complete

  /** An episode import names a permit, or one bound episode of a pack permit. */
  datatype ImportKey = OfPermit(permit: PermitId) | OfPackEpisode(pack: PermitId, scope: Scope)

  datatype Database = Database(
    permits: map<PermitId, Permit>,
    reservations: map<ReservationId, Reservation>,
    requests: map<RequestId, RequestState>,
    handovers: map<PermitId, Handover>,
    bindings: map<PermitId, map<Scope, seq<string>>>,
    tombstones: set<MediaKey>,
    movieImports: map<ReservationId, ImportState>,
    episodeImports: map<ImportKey, ImportState>)
  {
    predicate Active(r: ReservationId) {
      r in reservations && reservations[r].Active()
    }

    /** Is `id` the parent of a handover that has not completed? */
    predicate HandingOver(id: PermitId) {
      id in PendingParents(handovers)
    }

    /** A live pack row that serves the scope through a binding. */
    predicate ServesByBinding(id: PermitId, scope: Scope) {
      id in permits && permits[id].Live() && id in bindings && scope in bindings[id]
    }

    /** Does live permit `id` cover slot (r, scope), itself or by a binding? */
    predicate Covers(id: PermitId, r: ReservationId, scope: Scope) {
      id in permits && permits[id].reservation == r && permits[id].Primary() &&
      (permits[id].scope == scope || (id in bindings && scope in bindings[id]))
    }

    /** The rows that `_pending_bytes` selects for a pool. */
    predicate Counted(id: PermitId, pool: PoolId, now: int) {
      && id in permits
      && var p := permits[id];
      && Active(p.reservation)
      && (p.Live() || HandingOver(id))
      && (p.state != Authorized || p.expires > now)
      && p.budget > 0
      && p.pool == pool
      && !(OfPermit(id) in episodeImports && episodeImports[OfPermit(id)] == Complete)
    }

    ghost function LiveBytes(r: ReservationId): nat {
      Sum(LiveBudgets(permits, r))
    }

    /** Live permits together with the parents whose handover is still pending. */
    ghost function HeldBytes(r: ReservationId): nat {
      Sum(HeldBudgets(permits, PendingParents(handovers), r))
    }

    /** Nothing anywhere mentions this identifier yet, as for a new uuid4. */
    predicate Fresh(id: PermitId) {
      && id !in permits
      && id !in bindings
      && id !in handovers
      && (forall c :: c in handovers ==> handovers[c].parent != id)
      && (forall k :: k in episodeImports ==> k != OfPermit(id))
    }
  }

  function PendingParents(handovers: map<PermitId, Handover>): set<PermitId> {
    set c | c in handovers && handovers[c].pending :: handovers[c].parent
  }

  function LiveBudgets(permits: map<PermitId, Permit>, r: ReservationId): map<PermitId, nat> {
    map id | id in permits && permits[id].reservation == r && permits[id].Live() :: permits[id].budget
  }

  function HeldBudgets(permits: map<PermitId, Permit>, parents: set<PermitId>, r: ReservationId)
    : map<PermitId, nat>
  {
    map id | id in permits && permits[id].reservation == r && (permits[id].Live() || id in parents) ::
      permits[id].budget
  }

  // ---- Measured disk and queue evidence ----

  datatype PoolEvidence = PoolEvidence(
    filesystem: FilesystemId,
    free: nat,
    remaining: map<InfoHash, nat>,
    otherPending: nat,
    paused: set<InfoHash>)

  /** Evidence for the registered pools that could be measured. */
  type Capacity = map<PoolId, PoolEvidence>

  function CountedRows(db: Database, pool: PoolId, now: int): set<PermitId> {
    set id | id in db.permits && db.Counted(id, pool, now)
  }

  ghost function CountedBudgets(db: Database, pool: PoolId, now: int, h: InfoHash): set<nat> {
    set id | id in CountedRows(db, pool, now) && db.permits[id].infohash == h :: db.permits[id].budget
  }

  ghost function CommittedHashes(db: Database, e: PoolEvidence, pool: PoolId, now: int): set<InfoHash> {
    e.remaining.Keys + set id | id in CountedRows(db, pool, now) :: db.permits[id].infohash
  }

  /**
   One commitment per torrent: what qBittorrent still has to fetch when the
   queue reports it, and otherwise the largest budget any counted row gave it.
   */
  ghost function Commitments(db: Database, e: PoolEvidence, pool: PoolId, now: int): map<InfoHash, nat> {
    map h | h in CommittedHashes(db, e, pool, now) ::
      if h in e.remaining then e.remaining[h] else Largest(CountedBudgets(db, pool, now, h))
  }

  ghost function PendingBytes(db: Database, e: PoolEvidence, pool: PoolId, now: int): nat {
    e.otherPending + Sum(Commitments(db, e, pool, now))
  }
}
