/** The content-addressed store with access rows (maze/core/files/artifact_store.py).

    `Store` is the durable state: the four tables of the access database and the
    blobs on disk.  Every `BEGIN IMMEDIATE` block is one `Action`; any number of
    processes may interleave them.  The reaper unlinks a blob before its
    transaction commits, so a crash between the two is an action of its own. */
module ArtifactStore {
  import opened Options

  type Sha = nat      // a digest, ordered as the number its hex digits spell
  type Cap = nat      // the hash of a capability token
  type Owner = string

  datatype Row = Row(isPrivate: bool, managed: bool)

  /** Who could see the bytes when they were written: `Public` when the digest
      had no access row, `Private` when it had one.  The store does not keep it. */
  datatype Origin = Public | Private

  datatype Store = Store(
    caps: set<Cap>,
    owners: set<(Owner, Cap)>,
    rows: map<Sha, Row>,
    grants: set<(Sha, Cap)>,
    blobs: map<Sha, Origin>)

  datatype Action =
    | CreateCapability(cap: Cap, owner: Option<Owner>)
    | MarkPrivate(sha: Sha, token: Option<Cap>)
    | PutPrivate(sha: Sha, cap: Cap, written: bool)
    | PutPublic(sha: Sha, token: Option<Cap>, written: bool)
    | RevokeOwner(who: Owner)
    | ReapOne
    | ReapCrash

  const FRESH := Store({}, {}, map[], {}, map[])

  predicate HasGrant(grants: set<(Sha, Cap)>, sha: Sha) {
    exists g <- grants :: g.0 == sha
  }

  /** The managed private rows that no grant protects: what the reaper removes. */
  function Orphans(s: Store): set<Sha> {
    set x <- s.rows | s.rows[x].isPrivate && s.rows[x].managed && !HasGrant(s.grants, x)
  }

  /** `can_read`: a digest without a private row is public. */
  predicate CanRead(s: Store, sha: Sha, token: Option<Cap>) {
    if sha !in s.rows || !s.rows[sha].isPrivate then true
    else token.Some? && (sha, token.value) in s.grants
  }

  /** Writing never replaces a blob that is already there. */
  function WriteBlob(s: Store, sha: Sha, written: bool): Store {
    if sha in s.blobs || !written then s
    else s.(blobs := s.blobs[sha := if sha in s.rows then Private else Public])
  }

  function DoMarkPrivate(s: Store, sha: Sha, cap: Cap): Store {
    var managed := sha !in s.blobs;
    var row := Row(true, managed || (sha in s.rows && s.rows[sha].managed));
    s.(rows := s.rows[sha := row], grants := s.grants + {(sha, cap)})
  }

  function OwnedBy(s: Store, who: Owner): set<Cap> {
    set o <- s.owners | o.0 == who :: o.1
  }

  /** The rows a revocation looks at: those some capability of the owner opens. */
  function RowsOpenedBy(s: Store, caps: set<Cap>): set<Sha> {
    set g <- s.grants | g.1 in caps && g.0 in s.rows :: g.0
  }

  /** Deleting capabilities cascades into owners and grants. */
  function DropCapabilities(s: Store, dead: set<Cap>): Store {
    s.(caps := s.caps - dead,
       owners := (set o <- s.owners | o.1 !in dead),
       grants := (set g <- s.grants | g.1 !in dead))
  }

  /** The revocation transaction; its rows are read before the deletion. */
  function DoRevoke(s: Store, who: Owner): Store {
    var dead := OwnedBy(s, who);
    var touched := RowsOpenedBy(s, dead);
    var t := DropCapabilities(s, dead);
    t.(rows := map x <- t.rows
               | !(x in touched && !HasGrant(t.grants, x) && !t.rows[x].managed)
               :: t.rows[x])
  }

  function Forget(s: Store, sha: Sha): Store {
    s.(rows := s.rows - {sha}, blobs := s.blobs - {sha})
  }

  ghost predicate IsLeast(x: Sha, xs: set<Sha>) {
    x in xs && forall y <- xs :: x <= y
  }

  lemma LeastExists(xs: set<Sha>)
    requires xs != {}
    ensures exists x :: IsLeast(x, xs)
  {
    var x :| x in xs;
    var ys := xs - {x};
    assert forall z <- xs :: z == x || z in ys;
    if ys == {} {
      assert IsLeast(x, xs);
    } else {
      LeastExists(ys);
      var y :| IsLeast(y, ys);
      assert IsLeast(if y < x then y else x, xs);
    }
  }

  ghost function Least(xs: set<Sha>): (x: Sha)
    requires xs != {}
    ensures IsLeast(x, xs)
  {
    LeastExists(xs);
    var x :| IsLeast(x, xs);
    x
  }

  /** One turn of the reaping loop, in digest order. */
  ghost function DoReapOne(s: Store): Store {
    if Orphans(s) == {} then s else Forget(s, Least(Orphans(s)))
  }

  /** The reaper dies after the unlink: the transaction rolls back. */
  ghost function DoReapCrash(s: Store): Store {
    if Orphans(s) == {} then s else s.(blobs := s.blobs - {Least(Orphans(s))})
  }

  /** One transaction.  A transaction that raises leaves the store as it was. */
  ghost function Step(s: Store, a: Action): Store {
    match a
    case CreateCapability(cap, owner) =>
      if cap in s.caps then s
      else s.(caps := s.caps + {cap},
              owners := s.owners + if owner.Some? then {(owner.value, cap)} else {})
    case MarkPrivate(sha, token) =>
      if token.None? || token.value !in s.caps then s else DoMarkPrivate(s, sha, token.value)
    case PutPrivate(sha, cap, written) =>
      if sha in s.rows && s.rows[sha].isPrivate && (sha, cap) in s.grants && cap in s.caps
      then WriteBlob(s, sha, written) else s
    case PutPublic(sha, token, written) =>
      if sha in s.rows && s.rows[sha].isPrivate
         && !(token.Some? && (sha, token.value) in s.grants && token.value in s.caps)
      then s else WriteBlob(s, sha, written)
    case RevokeOwner(who) => DoRevoke(s, who)
    case ReapOne => DoReapOne(s)
    case ReapCrash => DoReapCrash(s)
  }

  /** Any interleaving of transactions, from any number of processes. */
  ghost function Run(s: Store, actions: seq<Action>): Store
    decreases |actions|
  {
    if actions == [] then s
    else Run(Step(s, actions[0]), actions[1..])
  }

  // ----- what every transaction keeps -------------------------------------

  /** The tables' foreign keys; the inductive core (an unmanaged row has a blob and
      a grant); and where bytes of each origin may live. */
  ghost predicate Inv(s: Store) {
    && (forall o <- s.owners :: o.1 in s.caps)
    && (forall g <- s.grants :: g.0 in s.rows && g.1 in s.caps)
    && (forall x <- s.rows :: s.rows[x].isPrivate)
    && (forall x <- s.rows :: !s.rows[x].managed ==> x in s.blobs && HasGrant(s.grants, x))
    && (forall x <- s.blobs :: s.blobs[x].Private? ==> x in s.rows && s.rows[x].managed)
    && (forall x <- s.blobs :: s.blobs[x].Public? && x in s.rows ==> !s.rows[x].managed)
  }

  lemma MarkPrivateKeeps(s: Store, sha: Sha, cap: Cap)
    requires Inv(s) && cap in s.caps
    ensures Inv(DoMarkPrivate(s, sha, cap))
  {
    var t := DoMarkPrivate(s, sha, cap);
    assert (sha, cap) in t.grants;
    forall x <- t.rows | !t.rows[x].managed ensures x in t.blobs && HasGrant(t.grants, x) {
      if x != sha {
        var g :| g in s.grants && g.0 == x;
        assert g in t.grants;
      }
    }
  }

  lemma RevokeKeeps(s: Store, who: Owner)
    requires Inv(s)
    ensures Inv(DoRevoke(s, who))
  {
    var dead := OwnedBy(s, who);
    var t := DoRevoke(s, who);
    forall x <- t.rows | !t.rows[x].managed ensures HasGrant(t.grants, x) {
      var g :| g in s.grants && g.0 == x;
      if g.1 in dead {
        assert x in RowsOpenedBy(s, dead);
      } else {
        assert g in t.grants;
      }
    }
    forall g <- t.grants ensures g.0 in t.rows && g.1 in t.caps {
      assert HasGrant(t.grants, g.0);
    }
  }

  lemma ForgetKeeps(s: Store, sha: Sha)
    requires Inv(s) && sha in Orphans(s)
    ensures Inv(Forget(s, sha))
  {
  }

  lemma StepKeeps(s: Store, a: Action)
    requires Inv(s)
    ensures Inv(Step(s, a))
  {
    match a
    case CreateCapability(cap, owner) =>
    case MarkPrivate(sha, token) =>
      if token.Some? && token.value in s.caps { MarkPrivateKeeps(s, sha, token.value); }
    case PutPrivate(sha, cap, written) =>
    case PutPublic(sha, token, written) =>
    case RevokeOwner(who) => RevokeKeeps(s, who);
    case ReapOne =>
      if Orphans(s) != {} { ForgetKeeps(s, Least(Orphans(s))); }
    case ReapCrash =>
  }

  lemma {:induction false} RunKeeps(s: Store, actions: seq<Action>)
    requires Inv(s)
    ensures Inv(Run(s, actions))
    decreases |actions|
  {
    if actions != [] {
      StepKeeps(s, actions[0]);
      RunKeeps(Step(s, actions[0]), actions[1..]);
    }
  }

  // ----- confidentiality, durability, return to public ---------------------

  /** Bytes written under a private row can be read by a currently granted,
      still existing capability and by nobody else, in every reachable state. */
  lemma PrivateBytesNeedAGrant(actions: seq<Action>, sha: Sha, token: Option<Cap>)
    requires sha in Run(FRESH, actions).blobs && Run(FRESH, actions).blobs[sha].Private?
    ensures var s := Run(FRESH, actions);
            CanRead(s, sha, token) <==>
            token.Some? && token.value in s.caps && (sha, token.value) in s.grants
  {
    RunKeeps(FRESH, actions);
  }

  lemma StepKeepsOrigins(s: Store, a: Action, sha: Sha)
    requires Inv(s) && sha in s.blobs
    ensures sha in Step(s, a).blobs ==> Step(s, a).blobs[sha] == s.blobs[sha]
    ensures sha !in Step(s, a).blobs ==> sha in Orphans(s) && s.blobs[sha].Private?
  {
  }

  /** A blob written while its digest had no row is never unlinked. */
  lemma {:induction false} PublicBytesSurvive(s: Store, actions: seq<Action>, sha: Sha)
    requires Inv(s) && sha in s.blobs && s.blobs[sha].Public?
    ensures sha in Run(s, actions).blobs && Run(s, actions).blobs[sha].Public?
    decreases |actions|
  {
    if actions != [] {
      StepKeeps(s, actions[0]);
      StepKeepsOrigins(s, actions[0], sha);
      PublicBytesSurvive(Step(s, actions[0]), actions[1..], sha);
    }
  }

  /** Such a blob is public exactly while no grant protects it, and then it has no
      row at all: once the last grant is revoked it is public again. */
  lemma PublicBytesReturnToPublic(actions: seq<Action>, sha: Sha)
    requires sha in Run(FRESH, actions).blobs && Run(FRESH, actions).blobs[sha].Public?
    ensures var s := Run(FRESH, actions);
            && (CanRead(s, sha, None) <==> !HasGrant(s.grants, sha))
            && (CanRead(s, sha, None) <==> sha !in s.rows)
  {
    RunKeeps(FRESH, actions);
  }

  /** From the moment bytes are written privately, no interleaving of transactions
      and crashes makes them readable without a capability while they exist. */
  lemma {:induction false} PrivateBytesStayPrivate(s: Store, actions: seq<Action>, sha: Sha)
    requires Inv(s) && sha in s.blobs && s.blobs[sha].Private?
    requires forall n :: 0 <= n <= |actions| ==> sha in Run(s, actions[..n]).blobs
    ensures var t := Run(s, actions);
            sha in t.blobs && t.blobs[sha].Private? && !CanRead(t, sha, None)
    decreases |actions|
  {
    assert actions[..|actions|] == actions;
    if actions != [] {
      var t := Step(s, actions[0]);
      StepKeeps(s, actions[0]);
      StepKeepsOrigins(s, actions[0], sha);
      forall n | 0 <= n <= |actions| - 1 ensures sha in Run(t, actions[1..][..n]).blobs {
        assert actions[..n + 1][0] == actions[0] && actions[..n + 1][1..] == actions[1..][..n];
        assert sha in Run(s, actions[..n + 1]).blobs;
      }
      assert sha in Run(s, actions[..1]).blobs;
      assert actions[..1][0] == actions[0] && actions[..1][1..] == [];
      assert Run(s, actions[..1]) == t;
      PrivateBytesStayPrivate(t, actions[1..], sha);
    }
  }

  // ----- reaping and revocation --------------------------------------------

  /** What the reaping loop leaves when nothing interrupts it. */
  function Reaped(s: Store): Store {
    s.(rows := s.rows - Orphans(s), blobs := s.blobs - Orphans(s))
  }

  /** One turn removes one orphan and makes no new one. */
  lemma ForgetShrinksOrphans(s: Store, sha: Sha)
    requires sha in Orphans(s)
    ensures Orphans(Forget(s, sha)) == Orphans(s) - {sha}
    ensures |Orphans(Forget(s, sha))| < |Orphans(s)|
    ensures Reaped(Forget(s, sha)) == Reaped(s)
  {
    var t := Forget(s, sha);
    assert Orphans(t) == Orphans(s) - {sha};
    assert s.rows - {sha} - Orphans(t) == s.rows - Orphans(s);
    assert s.blobs - {sha} - Orphans(t) == s.blobs - Orphans(s);
  }

  function Turns(n: nat): seq<Action> {
    seq(n, _ => ReapOne)
  }

  /** The loop terminates: as many turns as there are orphans reach `Reaped`. */
  lemma {:induction false} ReapingTerminates(s: Store)
    ensures Run(s, Turns(|Orphans(s)|)) == Reaped(s)
    ensures Orphans(Reaped(s)) == {}
    decreases |Orphans(s)|
  {
    if Orphans(s) == {} {
      assert Reaped(s) == s;
    } else {
      var x := Least(Orphans(s));
      ForgetShrinksOrphans(s, x);
      ReapingTerminates(Forget(s, x));
      assert Turns(|Orphans(s)|)[1..] == Turns(|Orphans(Forget(s, x))|);
    }
  }

  /** Revocation followed at once by the reaping loop: every capability of the owner
      is gone and opens nothing private, no managed row is left without a grant, and
      bytes that survive are exactly those that were not only the owner's. */
  lemma RevocationIsComplete(actions: seq<Action>, who: Owner)
    ensures var s := Run(FRESH, actions);
            var t := Reaped(DoRevoke(s, who));
            && Inv(t) && Orphans(t) == {} && OwnedBy(t, who) == {}
            && (forall c <- OwnedBy(s, who) :: c !in t.caps)
            && (forall c <- OwnedBy(s, who), x <- t.rows :: !CanRead(t, x, Some(c)))
            && (forall x <- s.blobs :: x !in t.blobs <==>
                  x in s.rows && s.rows[x].managed && !HasGrant(t.grants, x))
  {
    var s := Run(FRESH, actions);
    RunKeeps(FRESH, actions);
    RevokeKeeps(s, who);
    var r := DoRevoke(s, who);
    ReapingTerminates(r);
    RunKeeps(r, Turns(|Orphans(r)|));
  }

  // ----- what stays, and who may do what ------------------------------------

  /** A capability exists when it is owned, and has at most one owner. */
  ghost predicate OneOwner(s: Store) {
    && (forall o <- s.owners :: o.1 in s.caps)
    && forall a <- s.owners, b <- s.owners :: a.1 == b.1 ==> a.0 == b.0
  }

  lemma OwnerStaysOne(s: Store, a: Action)
    requires OneOwner(s)
    ensures OneOwner(Step(s, a))
  {
    hide Orphans, HasGrant, RowsOpenedBy;
  }

  lemma {:induction false} OwnersStayOne(s: Store, actions: seq<Action>)
    requires OneOwner(s)
    ensures OneOwner(Run(s, actions))
    decreases |actions|
  {
    if actions != [] {
      OwnerStaysOne(s, actions[0]);
      hide Step, OneOwner;
      OwnersStayOne(Step(s, actions[0]), actions[1..]);
    }
  }

  /** The revocation transaction takes one owner's capabilities and their grants, and
      nobody else's; it unlinks nothing. */
  lemma RevocationSparesOtherOwners(s: Store, who: Owner)
    requires OneOwner(s)
    ensures var t := DoRevoke(s, who);
            && t.caps == (set c <- s.caps | (who, c) !in s.owners)
            && t.owners == (set o <- s.owners | o.0 != who)
            && t.grants == (set g <- s.grants | (who, g.1) !in s.owners)
            && t.blobs == s.blobs
  {
    var t := DoRevoke(s, who);
    forall c: Cap ensures c in OwnedBy(s, who) <==> (who, c) in s.owners {}
    hide RowsOpenedBy, HasGrant;
    forall o: (Owner, Cap) ensures o in t.owners <==> o in s.owners && o.0 != who {
      if o in s.owners && o.0 != who && (who, o.1) in s.owners { assert false; }
    }
  }

  /** Once reaped: bytes stay exactly when they were public or somebody else still has a
      grant for them, and whoever has one reads them as before. */
  lemma OthersStillRead(actions: seq<Action>, who: Owner, x: Sha)
    requires x in Run(FRESH, actions).blobs
    ensures var s := Run(FRESH, actions); var t := Reaped(DoRevoke(s, who));
            && (x in t.blobs <==>
                  s.blobs[x].Public? || exists g <- s.grants :: g.0 == x && (who, g.1) !in s.owners)
            && (x in t.blobs ==> t.blobs[x] == s.blobs[x])
            && (forall c: Cap :: (x, c) in s.grants && (who, c) !in s.owners ==> CanRead(t, x, Some(c)))
  {
    var s := Run(FRESH, actions);
    RunKeeps(FRESH, actions);
    OwnersStayOne(FRESH, actions);
    RevocationSparesOtherOwners(s, who);
    RevokeKeeps(s, who);
    var r := DoRevoke(s, who);
    hide Run, DoRevoke, OneOwner;
    if g :| g in s.grants && g.0 == x && (who, g.1) !in s.owners { assert g in r.grants && HasGrant(r.grants, x); }
    if HasGrant(r.grants, x) {
      var g :| g in r.grants && g.0 == x;
      assert g in s.grants;
    }
    forall c: Cap | (x, c) in s.grants && (who, c) !in s.owners ensures CanRead(Reaped(r), x, Some(c)) {
      assert (x, c) in r.grants;
    }
  }

  /** Who reads what, for all bytes in every reachable state. */
  lemma ReadableIff(actions: seq<Action>, sha: Sha, token: Option<Cap>)
    requires sha in Run(FRESH, actions).blobs
    ensures var s := Run(FRESH, actions);
            CanRead(s, sha, token) <==>
              || (s.blobs[sha].Public? && forall c: Cap :: (sha, c) !in s.grants)
              || (token.Some? && token.value in s.caps && (sha, token.value) in s.grants)
  {
    RunKeeps(FRESH, actions);
    var s := Run(FRESH, actions);
    hide Run;
    if HasGrant(s.grants, sha) {
      var g :| g in s.grants && g.0 == sha;
      assert (sha, g.1) in s.grants;
    }
  }

  /** A private write takes place exactly with a grant of an existing capability, a public
      one exactly without a grant in the way or with one; neither replaces bytes, and
      bytes are private exactly when somebody has a grant for them. */
  lemma WritesIff(s: Store, sha: Sha, token: Option<Cap>, cap: Cap)
    requires Inv(s) && sha !in s.blobs
    ensures var t := Step(s, PutPrivate(sha, cap, true));
            if cap in s.caps && (sha, cap) in s.grants then t == s.(blobs := s.blobs[sha := Private]) else t == s
    ensures var t := Step(s, PutPublic(sha, token, true));
            if sha !in s.rows then t == s.(blobs := s.blobs[sha := Public])
            else if token.Some? && (sha, token.value) in s.grants then t == s.(blobs := s.blobs[sha := Private])
            else t == s
  {
  }

  lemma NothingIsReplaced(s: Store, sha: Sha, token: Option<Cap>, cap: Cap, written: bool)
    requires sha in s.blobs || !written
    ensures Step(s, PutPrivate(sha, cap, written)) == s && Step(s, PutPublic(sha, token, written)) == s
  {
  }

  /** Reserving a digest gives exactly the known capability a grant; a row whose bytes were
      not there when it was made is managed from then on. */
  lemma ReservationIs(s: Store, sha: Sha, token: Option<Cap>)
    requires Inv(s)
    ensures var t := Step(s, Action.MarkPrivate(sha, token));
            && t.caps == s.caps && t.owners == s.owners && t.blobs == s.blobs
            && (forall g: (Sha, Cap) :: g in t.grants <==>
                  g in s.grants || (g.0 == sha && token == Some(g.1) && g.1 in s.caps))
            && (forall x: Sha :: x in t.rows <==> x in s.rows || (x == sha && token.Some? && token.value in s.caps))
            && (token.Some? && token.value in s.caps ==>
                  (t.rows[sha].managed <==> sha !in s.blobs || s.blobs[sha].Private?))
            && (forall x <- s.rows :: x != sha ==> t.rows[x] == s.rows[x])
  {
  }

  /** A new capability opens nothing yet. */
  lemma NewCapabilityIs(s: Store, cap: Cap, owner: Option<Owner>)
    requires Inv(s) && cap !in s.caps
    ensures var t := Step(s, Action.CreateCapability(cap, owner));
            && t.caps == s.caps + {cap} && t.rows == s.rows && t.blobs == s.blobs
            && t.grants == s.grants && (forall g <- t.grants :: g.1 != cap)
            && forall o: (Owner, Cap) :: o in t.owners <==> o in s.owners || (owner == Some(o.0) && o.1 == cap)
  {
  }

  // ----- the store object ---------------------------------------------------

  datatype Outcome = Done | PermissionDenied | WriteFailed

  class LocalCASArtifactStore {
    var capabilities: set<Cap>
    var capabilityOwners: set<(Owner, Cap)>
    var artifactAccess: map<Sha, Row>
    var artifactGrants: set<(Sha, Cap)>
    var disk: map<Sha, Origin>

    ghost function State(): Store
      reads this
    {
      Store(capabilities, capabilityOwners, artifactAccess, artifactGrants, disk)
    }

    constructor ()
      ensures State() == FRESH
    {
      capabilities, capabilityOwners, artifactGrants := {}, {}, {};
      artifactAccess, disk := map[], map[];
    }

    /** `token` stands for the hash of a newly drawn random capability. */
    method CreateCapability(token: Cap, owner: Option<Owner>) returns (inserted: bool)
      modifies this
      ensures inserted <==> token !in old(capabilities)
      ensures State() == Step(old(State()), Action.CreateCapability(token, owner))
    {
      if token in capabilities { return false; }
      capabilities := capabilities + {token};
      if owner.Some? {
        capabilityOwners := capabilityOwners + {(owner.value, token)};
      }
      return true;
    }

    method MarkPrivate(sha: Sha, token: Option<Cap>) returns (outcome: Outcome)
      modifies this`artifactAccess, this`artifactGrants
      ensures State() == Step(old(State()), Action.MarkPrivate(sha, token))
      ensures outcome.Done? <==> token.Some? && token.value in capabilities
      ensures !outcome.WriteFailed?
      ensures outcome.Done? ==>
                (sha, token.value) in artifactGrants && sha in artifactAccess && artifactAccess[sha].isPrivate
    {
      if token.None? || token.value !in capabilities {
        return PermissionDenied;
      }
      var managed := sha !in disk;
      if sha in artifactAccess && artifactAccess[sha].managed {
        managed := true;
      }
      artifactAccess := artifactAccess[sha := Row(true, managed)];
      artifactGrants := artifactGrants + {(sha, token.value)};
      return Done;
    }

    method PutPrivateBlob(sha: Sha, cap: Cap, writes: bool) returns (outcome: Outcome)
      modifies this`disk
      ensures State() == Step(old(State()), PutPrivate(sha, cap, writes))
      ensures outcome.PermissionDenied? <==>
                !(sha in artifactAccess && artifactAccess[sha].isPrivate
                  && (sha, cap) in artifactGrants && cap in capabilities)
      ensures outcome.Done? ==> sha in disk
      ensures outcome.WriteFailed? ==> !writes && sha !in disk
    {
      if !(sha in artifactAccess && artifactAccess[sha].isPrivate
           && (sha, cap) in artifactGrants && cap in capabilities) {
        return PermissionDenied;
      }
      if sha !in disk {
        if !writes { return WriteFailed; }
        disk := disk[sha := Private];
      }
      return Done;
    }

    method PutPublicOrAuthorizedBlob(sha: Sha, token: Option<Cap>, writes: bool) returns (outcome: Outcome)
      modifies this`disk
      ensures State() == Step(old(State()), PutPublic(sha, token, writes))
      ensures outcome.PermissionDenied? <==>
                && sha in artifactAccess && artifactAccess[sha].isPrivate
                && (token.None? || (sha, token.value) !in artifactGrants || token.value !in capabilities)
      ensures outcome.Done? ==> sha in disk
      ensures outcome.WriteFailed? ==> !writes && sha !in disk
    {
      if sha in artifactAccess && artifactAccess[sha].isPrivate {
        if token.None? || (sha, token.value) !in artifactGrants || token.value !in capabilities {
          return PermissionDenied;
        }
      }
      if sha !in disk {
        if !writes { return WriteFailed; }
        disk := disk[sha := if sha in artifactAccess then Private else Public];
      }
      return Done;
    }

    /** `put_bytes` and `put_file` with nobody in between. */
    method Put(sha: Sha, private_: bool, token: Option<Cap>, writes: bool) returns (outcome: Outcome)
      modifies this
      ensures State() == Run(old(State()),
                if !private_ then [PutPublic(sha, token, writes)]
                else if token.None? then []
                else [Action.MarkPrivate(sha, token), PutPrivate(sha, token.value, writes)])
      ensures outcome.Done? ==> sha in disk
      ensures outcome.Done? && private_ ==>
                token.Some? && CanRead(State(), sha, token) && !CanRead(State(), sha, None)
      ensures private_ ==> (outcome.PermissionDenied? <==> token.None? || token.value !in old(capabilities))
      ensures outcome.WriteFailed? ==> !writes && sha !in disk
    {
      ghost var before := State();
      if !private_ {
        outcome := PutPublicOrAuthorizedBlob(sha, token, writes);
        return;
      }
      if token.None? { return PermissionDenied; }
      outcome := MarkPrivate(sha, token);
      ghost var marked := State();
      if outcome.Done? {
        outcome := PutPrivateBlob(sha, token.value, writes);
      }
      ghost var actions := [Action.MarkPrivate(sha, token), PutPrivate(sha, token.value, writes)];
      assert actions[1..] == [PutPrivate(sha, token.value, writes)];
      assert Run(marked, actions[1..]) == Step(marked, actions[1]);
    }

    method MayRead(sha: Sha, token: Option<Cap>) returns (ok: bool)
      ensures ok == CanRead(State(), sha, token)
    {
      if sha !in artifactAccess || !artifactAccess[sha].isPrivate { return true; }
      if token.None? { return false; }
      return (sha, token.value) in artifactGrants;
    }

    method ReapRevokedManagedBlobs()
      modifies this`artifactAccess, this`disk
      ensures State() == Reaped(old(State()))
    {
      var orphans := set x <- artifactAccess
                     | artifactAccess[x].isPrivate && artifactAccess[x].managed
                       && !HasGrant(artifactGrants, x);
      assert orphans == Orphans(State());
      while orphans != {}
        invariant orphans == Orphans(State())
        invariant Reaped(State()) == Reaped(old(State()))
        decreases |orphans|
      {
        LeastExists(orphans);
        var sha :| sha in orphans && forall y <- orphans :: sha <= y;
        ForgetShrinksOrphans(State(), sha);
        disk := disk - {sha};
        artifactAccess := artifactAccess - {sha};
        orphans := orphans - {sha};
      }
      assert artifactAccess - {} == artifactAccess && disk - {} == disk;
    }

    /** The loop of the revocation transaction: an unmanaged row that lost its last
        grant is deleted, which makes its bytes public again. */
    method RestorePublicRows(touched: set<Sha>)
      modifies this`artifactAccess
      ensures artifactAccess == map x <- old(artifactAccess)
                | !(x in touched && !HasGrant(artifactGrants, x) && !old(artifactAccess)[x].managed)
                :: old(artifactAccess)[x]
    {
      var pending := touched;
      while pending != {}
        invariant pending <= touched
        invariant artifactAccess == map x <- old(artifactAccess)
                    | !(x in touched - pending && !HasGrant(artifactGrants, x)
                        && !old(artifactAccess)[x].managed)
                    :: old(artifactAccess)[x]
        decreases |pending|
      {
        var sha :| sha in pending;
        pending := pending - {sha};
        if !HasGrant(artifactGrants, sha) && sha in artifactAccess && !artifactAccess[sha].managed {
          artifactAccess := artifactAccess - {sha};
        }
      }
    }

    /** The revocation transaction and then the reaping loop. */
    method RevokeOwnerCapabilities(who: Owner) returns (count: nat)
      modifies this
      ensures State() == Reaped(DoRevoke(old(State()), who))
      ensures count == |set o <- old(capabilityOwners) | o.0 == who :: o.1|
    {
      var dead := set o <- capabilityOwners | o.0 == who :: o.1;
      var touched := set g <- artifactGrants | g.1 in dead && g.0 in artifactAccess :: g.0;
      assert dead == OwnedBy(State(), who) && touched == RowsOpenedBy(State(), dead);
      capabilities := capabilities - dead;
      capabilityOwners := set o <- capabilityOwners | o.1 !in dead;
      artifactGrants := set g <- artifactGrants | g.1 !in dead;
      RestorePublicRows(touched);
      assert State() == DoRevoke(old(State()), who);
      count := |dead|;
      ReapRevokedManagedBlobs();
    }
  }
}
