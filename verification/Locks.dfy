/** The distributed project lock: SET NX EX, compare-and-expire, compare-and-delete. */
module Locks {
  type Token = nat

  /** A lock key holding `token`; Redis drops it when the clock reaches `expires`. */
  datatype Lease = Lease(token: Token, expires: real)

  type Table = map<string, Lease>

  predicate Live(l: Table, project: string, now: real) {
    project in l && now < l[project].expires
  }

  predicate Owned(l: Table, project: string, token: Token, now: real) {
    Live(l, project, now) && l[project].token == token
  }

  function Acquired(l: Table, project: string, token: Token, ttl: real, now: real): Table {
    if Live(l, project, now) then l else l[project := Lease(token, now + ttl)]
  }

  function Refreshed(l: Table, project: string, token: Token, ttl: real, now: real): Table {
    if Owned(l, project, token, now) then l[project := Lease(token, now + ttl)] else l
  }

  function Released(l: Table, project: string, token: Token, now: real): Table {
    if Owned(l, project, token, now) then l - {project} else l
  }

  /** The lock keys in Redis; the clock reading of each command is a parameter. */
  class LockTable {
    var leases: Table

    constructor ()
      ensures leases == map[]
    {
      leases := map[];
    }

    /** SET key token NX EX ttl. */
    method Acquire(project: string, token: Token, ttl: real, now: real) returns (acquired: bool)
      modifies this
      ensures acquired <==> (project in old(leases) ==> old(leases)[project].expires <= now)
      ensures leases == if acquired then old(leases)[project := Lease(token, now + ttl)] else old(leases)
      ensures leases == Acquired(old(leases), project, token, ttl, now)
    {
      if project in leases && now < leases[project].expires {
        return false;
      }
      leases := leases[project := Lease(token, now + ttl)];
      acquired := true;
    }

    /** EXPIRE key ttl, if the key still holds the token. */
    method Refresh(project: string, token: Token, ttl: real, now: real) returns (stillHeld: bool)
      modifies this
      ensures stillHeld <==>
                && project in old(leases) && old(leases)[project].token == token
                && now < old(leases)[project].expires
      ensures leases == if stillHeld then old(leases)[project := Lease(token, now + ttl)] else old(leases)
      ensures leases == Refreshed(old(leases), project, token, ttl, now)
    {
      stillHeld := project in leases && now < leases[project].expires && leases[project].token == token;
      if stillHeld {
        leases := leases[project := Lease(token, now + ttl)];
      }
    }

    /** DEL key, if the key still holds the token. */
    method Release(project: string, token: Token, now: real)
      modifies this
      ensures leases == if && project in old(leases) && old(leases)[project].token == token
                           && now < old(leases)[project].expires
                        then old(leases) - {project} else old(leases)
      ensures leases == Released(old(leases), project, token, now)
    {
      if project in leases && now < leases[project].expires && leases[project].token == token {
        leases := leases - {project};
      }
    }
  }

  // ---- histories without any timing assumption -------------------------------

  datatype Command =
    | AcquireCmd(project: string, token: Token, at: real)
    | RefreshCmd(project: string, token: Token, at: real)
    | ReleaseCmd(project: string, token: Token, at: real)

  function Apply(l: Table, c: Command, ttl: real): Table {
    match c
    case AcquireCmd(p, token, at) => Acquired(l, p, token, ttl, at)
    case RefreshCmd(p, token, at) => Refreshed(l, p, token, ttl, at)
    case ReleaseCmd(p, token, at) => Released(l, p, token, at)
  }

  function ApplyAll(l: Table, cs: seq<Command>, ttl: real): Table
    decreases |cs|
  {
    if cs == [] then l else ApplyAll(Apply(l, cs[0], ttl), cs[1..], ttl)
  }

  /**
   * The owner's view of a history: it never releases or acquires again, its next sign of life
   * always comes before its lease runs out, and every command before `until` falls inside it.
   */
  predicate KeptAlive(project: string, token: Token, expires: real, cs: seq<Command>, ttl: real, until: real)
    decreases |cs|
  {
    if cs == [] then
      until < expires
    else
      && cs[0].at < expires
      && (cs[0].token == token && cs[0].project == project ==> cs[0].RefreshCmd?)
      && KeptAlive(project, token, NextExpiry(project, token, expires, cs[0], ttl), cs[1..], ttl, until)
  }

  function NextExpiry(project: string, token: Token, expires: real, c: Command, ttl: real): real {
    if c.RefreshCmd? && c.project == project && c.token == token then c.at + ttl else expires
  }

  function LastExpiry(project: string, token: Token, expires: real, cs: seq<Command>, ttl: real): real
    decreases |cs|
  {
    if cs == [] then expires
    else LastExpiry(project, token, NextExpiry(project, token, expires, cs[0], ttl), cs[1..], ttl)
  }

  /** One command of another owner leaves a live lease as it is. */
  lemma StrangersAreHarmless(l: Table, project: string, token: Token, c: Command, ttl: real)
    requires Owned(l, project, token, c.at)
    requires c.project == project ==> c.token != token
    ensures var l' := Apply(l, c, ttl);
            project in l' && l'[project] == l[project]
  {}

  /**
   * Ownership persists: whatever other tokens do meanwhile, and for however long, the lock
   * stays with its owner, with the expiry its own last refresh gave it.
   */
  lemma {:induction false} OwnershipPersists(
    l: Table, project: string, token: Token, cs: seq<Command>, ttl: real, until: real)
    requires project in l && l[project].token == token
    requires KeptAlive(project, token, l[project].expires, cs, ttl, until)
    ensures var l' := ApplyAll(l, cs, ttl);
            && Owned(l', project, token, until)
            && l'[project].expires == LastExpiry(project, token, l[project].expires, cs, ttl)
    decreases |cs|
  {
    if cs != [] {
      var c := cs[0];
      if !(c.project == project && c.token == token) {
        StrangersAreHarmless(l, project, token, c, ttl);
      }
      OwnershipPersists(Apply(l, c, ttl), project, token, cs[1..], ttl, until);
    }
  }

  predicate Releases(c: Command, project: string, token: Token) {
    c.ReleaseCmd? && c.project == project && c.token == token
  }

  /** Conversely a live lease only ever disappears by the release of its own token. */
  lemma OnlyTheOwnerRemoves(l: Table, project: string, c: Command, ttl: real)
    requires Live(l, project, c.at)
    ensures project !in Apply(l, c, ttl) <==> Releases(c, project, l[project].token)
  {}

  /** There is a time by which every lease of a table has run out. */
  lemma {:induction false} AllExpire(l: Table) returns (last: real)
    ensures forall p | p in l :: l[p].expires <= last
    decreases |l|
  {
    last := 0.0;
    if l != map[] {
      var p :| p in l;
      var rest := AllExpire(l - {p});
      last := if rest < l[p].expires then l[p].expires else rest;
      assert forall q | q in l && q != p :: q in l - {p} && (l - {p})[q] == l[q];
    }
  }
}
