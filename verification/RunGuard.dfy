/** Who may write which branch of a conversation tree (agent/runguard.go). One lock covers all the
    maps, so every method is one step and a sequence of calls is an interleaving. Claims are named
    by the order they were granted in. */
module RunGuard {

  type Tree = string
  type Branch = string
  type StreamId = nat

  datatype Option<T> = None | Some(value: T)

  /** A run's claim: the branches it was granted, and whether it has been released. */
  datatype Claim = Claim(tree: Tree, stream: Option<StreamId>, branches: seq<Branch>, done: bool)

  datatype TreeClaim = TreeClaim(tree: Tree, done: bool)

  datatype Granted = Ok(claim: nat) | RunActive

  type Held = map<Tree, set<Branch>>
  type Streams = map<Tree, map<Branch, StreamId>>
  type Owners = map<(Tree, Branch), nat>

  predicate IsHeld(held: Held, t: Tree, b: Branch) {
    t in held && b in held[t]
  }

  predicate IsRegistered(streams: Streams, t: Tree, b: Branch) {
    t in streams && b in streams[t]
  }

  /** Every held branch has one owner, a claim that lists it, and a live claim owns all it lists. */
  ghost predicate Owned(held: Held, claims: seq<Claim>, owners: Owners) {
    && (forall t: Tree, b: Branch :: IsHeld(held, t, b) <==> (t, b) in owners)
    && (forall k | k in owners :: owners[k] < |claims| && claims[owners[k]].tree == k.0 && k.1 in claims[owners[k]].branches)
    && (forall c, b | 0 <= c < |claims| && !claims[c].done && b in claims[c].branches ::
         (claims[c].tree, b) in owners && owners[(claims[c].tree, b)] == c)
    && (forall c | 0 <= c < |claims| :: claims[c].branches != [])
  }

  /** A held branch maps to the stream of the run that holds it, when that has one. */
  ghost predicate Mapped(streams: Streams, claims: seq<Claim>, owners: Owners) {
    && (forall k | k in owners :: owners[k] < |claims|)
    && (forall t: Tree, b: Branch :: IsRegistered(streams, t, b) <==> (t, b) in owners && claims[owners[(t, b)]].stream.Some?)
    && (forall t: Tree, b: Branch | IsRegistered(streams, t, b) :: claims[owners[(t, b)]].stream == Some(streams[t][b]))
  }

  /** The held branches whose owner has been released. */
  ghost function StrandedIn(claims: seq<Claim>, owners: Owners): set<(Tree, Branch)> {
    set k | k in owners && owners[k] < |claims| && claims[owners[k]].done
  }

  /** A tree claim and a live branch claim never meet on a tree, and a tree has one claim. */
  ghost predicate Exclusive(held: Held, claims: seq<Claim>, trees: set<Tree>, treeClaims: seq<TreeClaim>) {
    && (forall t | t in held :: held[t] != {})
    && (forall c | 0 <= c < |claims| && !claims[c].done :: claims[c].tree !in trees)
    && (forall t: Tree :: t in trees <==> TreeClaim(t, false) in treeClaims)
    && (forall j, k | 0 <= j < k < |treeClaims| && !treeClaims[j].done && !treeClaims[k].done :: treeClaims[j].tree != treeClaims[k].tree)
  }

  function WithBranch(held: Held, t: Tree, b: Branch): Held {
    held[t := (if t in held then held[t] else {}) + {b}]
  }

  function WithStream(streams: Streams, t: Tree, b: Branch, s: Option<StreamId>): Streams {
    if s.None? then streams else streams[t := (if t in streams then streams[t] else map[])[b := s.value]]
  }

  /** The claims after `c` is granted `b` as well; a new claim is the next one. */
  function WithGrant(claims: seq<Claim>, c: nat, t: Tree, b: Branch, s: Option<StreamId>): seq<Claim>
    requires c <= |claims|
  {
    if c == |claims| then claims + [Claim(t, s, [b], false)] else claims[c := claims[c].(branches := claims[c].branches + [b])]
  }

  lemma GrantOwned(held: Held, claims: seq<Claim>, owners: Owners, c: nat, t: Tree, b: Branch, s: Option<StreamId>)
    requires Owned(held, claims, owners) && !IsHeld(held, t, b) && c <= |claims|
    requires c < |claims| ==> claims[c].tree == t
    ensures (t, b) !in owners && Owned(WithBranch(held, t, b), WithGrant(claims, c, t, b, s), owners[(t, b) := c])
  {
    var held', claims', owners' := WithBranch(held, t, b), WithGrant(claims, c, t, b, s), owners[(t, b) := c];
    forall t': Tree, b': Branch
      ensures IsHeld(held', t', b') <==> (t', b') in owners'
    {
      assert IsHeld(held, t', b') <==> (t', b') in owners;
    }
    forall k | k in owners'
      ensures owners'[k] < |claims'| && claims'[owners'[k]].tree == k.0 && k.1 in claims'[owners'[k]].branches
    {
      if k == (t, b) {
        assert claims'[c].branches[|claims'[c].branches| - 1] == b;
      }
    }
  }

  lemma GrantMapped(streams: Streams, claims: seq<Claim>, owners: Owners, c: nat, t: Tree, b: Branch, s: Option<StreamId>)
    requires Mapped(streams, claims, owners) && (t, b) !in owners && c <= |claims|
    requires c < |claims| ==> claims[c].stream == s
    ensures Mapped(WithStream(streams, t, b, s), WithGrant(claims, c, t, b, s), owners[(t, b) := c])
  {
    var streams', claims', owners' := WithStream(streams, t, b, s), WithGrant(claims, c, t, b, s), owners[(t, b) := c];
    forall t': Tree, b': Branch
      ensures IsRegistered(streams', t', b') <==> (t', b') in owners' && claims'[owners'[(t', b')]].stream.Some?
      ensures IsRegistered(streams', t', b') ==> claims'[owners'[(t', b')]].stream == Some(streams'[t'][b'])
    {
      assert IsRegistered(streams, t', b') <==> (t', b') in owners && claims[owners[(t', b')]].stream.Some?;
      if (t', b') != (t, b) {
        assert IsRegistered(streams', t', b') <==> IsRegistered(streams, t', b');
      }
    }
  }

  /** What a grant strands: the branch, when the claim has been released, and nothing else. */
  lemma GrantStrands(held: Held, claims: seq<Claim>, owners: Owners, c: nat, t: Tree, b: Branch, s: Option<StreamId>)
    requires Owned(held, claims, owners) && (t, b) !in owners && c <= |claims|
    ensures StrandedIn(WithGrant(claims, c, t, b, s), owners[(t, b) := c]) ==
      StrandedIn(claims, owners) + (if c < |claims| && claims[c].done then {(t, b)} else {})
  {
    var claims', owners' := WithGrant(claims, c, t, b, s), owners[(t, b) := c];
    forall k
      ensures k in StrandedIn(claims', owners') <==> k in StrandedIn(claims, owners) || (k == (t, b) && c < |claims| && claims[c].done)
    {
    }
  }

  lemma GrantExclusive(held: Held, claims: seq<Claim>, trees: set<Tree>, treeClaims: seq<TreeClaim>, c: nat, t: Tree, b: Branch, s: Option<StreamId>)
    requires Exclusive(held, claims, trees, treeClaims) && c <= |claims|
    requires (c < |claims| && claims[c].done) || t !in trees
    ensures Exclusive(WithBranch(held, t, b), WithGrant(claims, c, t, b, s), trees, treeClaims)
  {}

  // ---- releasing ----

  function Freed(held: Held, t: Tree, bs: set<Branch>): Held {
    if t !in held then held
    else if held[t] - bs == {} then held - {t}
    else held[t := held[t] - bs]
  }

  function StreamsFreed(streams: Streams, t: Tree, bs: set<Branch>): Streams {
    if t !in streams then streams
    else if streams[t].Keys - bs == {} then streams - {t}
    else streams[t := streams[t] - bs]
  }

  lemma FreedIsNotHeld(held: Held, t: Tree, bs: set<Branch>, t': Tree, b: Branch)
    ensures IsHeld(Freed(held, t, bs), t', b) <==> IsHeld(held, t', b) && !(t' == t && b in bs)
  {
    if t in held {
      assert b in held[t] && b !in bs ==> b in held[t] - bs;
    }
  }

  lemma FreedIsNotRegistered(streams: Streams, t: Tree, bs: set<Branch>, t': Tree, b: Branch)
    ensures IsRegistered(StreamsFreed(streams, t, bs), t', b) <==> IsRegistered(streams, t', b) && !(t' == t && b in bs)
    ensures IsRegistered(StreamsFreed(streams, t, bs), t', b) ==> StreamsFreed(streams, t, bs)[t'][b] == streams[t'][b]
  {
    if t in streams {
      assert b in streams[t] && b !in bs ==> b in streams[t].Keys - bs;
    }
  }

  function OwnersFreed(owners: Owners, t: Tree, bs: set<Branch>): Owners {
    map k | k in owners && !(k.0 == t && k.1 in bs) :: owners[k]
  }

  function Elements<T>(s: seq<T>): set<T> {
    set x | x in s
  }

  lemma ReleaseOwned(held: Held, claims: seq<Claim>, owners: Owners, c: nat)
    requires Owned(held, claims, owners) && c < |claims| && !claims[c].done
    ensures var bs := Elements(claims[c].branches);
            Owned(Freed(held, claims[c].tree, bs), claims[c := claims[c].(done := true)], OwnersFreed(owners, claims[c].tree, bs))
  {
    var t, bs := claims[c].tree, Elements(claims[c].branches);
    var held', claims', owners' := Freed(held, t, bs), claims[c := claims[c].(done := true)], OwnersFreed(owners, t, bs);
    forall t': Tree, b': Branch
      ensures IsHeld(held', t', b') <==> (t', b') in owners'
    {
      assert IsHeld(held, t', b') <==> (t', b') in owners;
      FreedIsNotHeld(held, t, bs, t', b');
    }
    forall k | k in owners'
      ensures owners'[k] < |claims'| && claims'[owners'[k]].tree == k.0 && k.1 in claims'[owners'[k]].branches
    {
    }
  }

  /** A release strands nothing, and frees nothing that is stranded. */
  lemma ReleaseStrands(held: Held, claims: seq<Claim>, owners: Owners, c: nat)
    requires Owned(held, claims, owners) && c < |claims| && !claims[c].done
    ensures StrandedIn(claims[c := claims[c].(done := true)], OwnersFreed(owners, claims[c].tree, Elements(claims[c].branches))) == StrandedIn(claims, owners)
  {
    var t, bs := claims[c].tree, Elements(claims[c].branches);
    var claims', owners' := claims[c := claims[c].(done := true)], OwnersFreed(owners, t, bs);
    forall k
      ensures k in StrandedIn(claims', owners') <==> k in StrandedIn(claims, owners)
    {
      assert k in owners && k.0 == t && k.1 in claims[c].branches ==> owners[k] == c;
    }
  }

  lemma ReleaseMapped(held: Held, streams: Streams, claims: seq<Claim>, owners: Owners, c: nat)
    requires Owned(held, claims, owners) && Mapped(streams, claims, owners) && c < |claims| && !claims[c].done
    ensures var bs := Elements(claims[c].branches);
            Mapped(if claims[c].stream.Some? then StreamsFreed(streams, claims[c].tree, bs) else streams,
                   claims[c := claims[c].(done := true)], OwnersFreed(owners, claims[c].tree, bs))
  {
    var t, bs := claims[c].tree, Elements(claims[c].branches);
    var claims', owners' := claims[c := claims[c].(done := true)], OwnersFreed(owners, t, bs);
    var streams' := if claims[c].stream.Some? then StreamsFreed(streams, t, bs) else streams;
    forall t': Tree, b': Branch
      ensures IsRegistered(streams', t', b') <==> (t', b') in owners' && claims'[owners'[(t', b')]].stream.Some?
      ensures IsRegistered(streams', t', b') ==> claims'[owners'[(t', b')]].stream == Some(streams'[t'][b'])
    {
      var gone := t' == t && b' in bs;
      assert IsRegistered(streams, t', b') <==> (t', b') in owners && claims[owners[(t', b')]].stream.Some?;
      assert gone ==> owners[(t', b')] == c;
      FreedIsNotRegistered(streams, t, bs, t', b');
    }
  }

  lemma ReleaseExclusive(held: Held, claims: seq<Claim>, trees: set<Tree>, treeClaims: seq<TreeClaim>, c: nat, bs: set<Branch>)
    requires Exclusive(held, claims, trees, treeClaims) && c < |claims|
    ensures Exclusive(Freed(held, claims[c].tree, bs), claims[c := claims[c].(done := true)], trees, treeClaims)
  {}

  lemma TreeGranted(held: Held, claims: seq<Claim>, owners: Owners, trees: set<Tree>, treeClaims: seq<TreeClaim>, t: Tree)
    requires Owned(held, claims, owners) && Exclusive(held, claims, trees, treeClaims) && t !in trees && t !in held
    ensures Exclusive(held, claims, trees + {t}, treeClaims + [TreeClaim(t, false)])
  {
    forall c | 0 <= c < |claims| && !claims[c].done
      ensures claims[c].tree != t
    {
      LiveIsHeld(held, claims, owners, c);
    }
    var treeClaims' := treeClaims + [TreeClaim(t, false)];
    assert treeClaims'[|treeClaims|] == TreeClaim(t, false);
    assert forall j | 0 <= j < |treeClaims| && !treeClaims[j].done :: treeClaims[j] in treeClaims;
  }

  lemma LiveIsHeld(held: Held, claims: seq<Claim>, owners: Owners, c: nat)
    requires Owned(held, claims, owners) && c < |claims| && !claims[c].done
    ensures claims[c].tree in held
  {
    var b := claims[c].branches[0];
    assert b in claims[c].branches;
    assert (claims[c].tree, b) in owners;
    assert IsHeld(held, claims[c].tree, b);
  }

  lemma TreeReleased(held: Held, claims: seq<Claim>, trees: set<Tree>, treeClaims: seq<TreeClaim>, k: nat)
    requires Exclusive(held, claims, trees, treeClaims) && k < |treeClaims| && !treeClaims[k].done
    ensures Exclusive(held, claims, trees - {treeClaims[k].tree}, treeClaims[k := treeClaims[k].(done := true)])
  {
    var t, treeClaims' := treeClaims[k].tree, treeClaims[k := treeClaims[k].(done := true)];
    forall t': Tree
      ensures t' in trees - {t} <==> TreeClaim(t', false) in treeClaims'
    {
      if TreeClaim(t', false) in treeClaims {
        var j :| 0 <= j < |treeClaims| && treeClaims[j] == TreeClaim(t', false);
        assert j != k ==> treeClaims'[j] == TreeClaim(t', false);
      }
    }
  }

  class Guard {
    var held: Held
    var trees: set<Tree>
    var streams: Streams
    var claims: seq<Claim>
    var treeClaims: seq<TreeClaim>
    /** The streams whose release channel is closed. */
    var released: set<StreamId>
    /** The claim that holds a branch. */
    ghost var owners: Owners

    ghost predicate Valid()
      reads this
    {
      Owned(held, claims, owners) && Mapped(streams, claims, owners) && Exclusive(held, claims, trees, treeClaims)
    }

    /** The branches that are held for a claim which has been released: no release frees them. */
    ghost function Stranded(): (stranded: set<(Tree, Branch)>)
      reads this`claims, this`owners
      ensures forall k :: k in stranded <==> k in owners && owners[k] < |claims| && claims[owners[k]].done
    {
      StrandedIn(claims, owners)
    }

    constructor ()
      ensures Valid() && Stranded() == {} && claims == [] && treeClaims == [] && held == map[] && trees == {} && released == {}
    {
      held, trees, streams, claims, treeClaims, released, owners := map[], {}, map[], [], [], {}, map[];
    }

    // ---- branch claims ----

    /** Grants a branch to a run, unless the tree is claimed or another run holds the branch. */
    method NewClaim(t: Tree, b: Branch, s: Option<StreamId>) returns (r: Granted)
      requires Valid()
      modifies this`held, this`streams, this`claims, this`owners
      ensures Valid() && Stranded() == old(Stranded())
      ensures r == if t in trees || IsHeld(old(held), t, b) then RunActive else Ok(|old(claims)|)
      ensures held == if r.Ok? then WithBranch(old(held), t, b) else old(held)
      ensures claims == if r.Ok? then old(claims) + [Claim(t, s, [b], false)] else old(claims)
      ensures r.RunActive? ==> owners == old(owners) && streams == old(streams)
    {
      hide Owned, Mapped, Exclusive, WithStream, StrandedIn;
      if t in trees {
        return RunActive;
      }
      var ok := Grant(|claims|, t, b, s);
      r := if ok then Ok(|claims| - 1) else RunActive;
    }

    /** Extends a claim; a branch it already has is no news. A branch granted to a claim that has
        been released is stranded, and nothing else ever is. */
    method Add(c: nat, b: Branch) returns (ok: bool)
      requires Valid() && c < |claims|
      modifies this`held, this`streams, this`claims, this`owners
      ensures Valid()
      ensures ok <==> b in old(claims)[c].branches || !IsHeld(old(held), old(claims)[c].tree, b)
      ensures var grown := ok && b !in old(claims)[c].branches;
              && claims == (if grown then old(claims)[c := old(claims)[c].(branches := old(claims)[c].branches + [b])] else old(claims))
              && held == (if grown then WithBranch(old(held), old(claims)[c].tree, b) else old(held))
              && Stranded() == old(Stranded()) + (if grown && old(claims)[c].done then {(old(claims)[c].tree, b)} else {})
    {
      hide Mapped, WithStream, StrandedIn;
      if b in claims[c].branches {
        return true;
      }
      if !claims[c].done {
        LiveTreeIsUnclaimed(c);
      }
      ok := Grant(c, claims[c].tree, b, claims[c].stream);
    }

    /** Adds the branch to claim `c`, which is the next new one or an old one, when it is free. */
    method Grant(c: nat, t: Tree, b: Branch, s: Option<StreamId>) returns (ok: bool)
      requires Valid() && c <= |claims|
      requires c < |claims| ==> claims[c].tree == t && claims[c].stream == s
      requires (c < |claims| && claims[c].done) || t !in trees
      modifies this`held, this`streams, this`claims, this`owners
      ensures Valid() && ok == !IsHeld(old(held), t, b)
      ensures held == if ok then WithBranch(old(held), t, b) else old(held)
      ensures claims == if ok then WithGrant(old(claims), c, t, b, s) else old(claims)
      ensures Stranded() == old(Stranded()) + (if ok && c < |old(claims)| && old(claims)[c].done then {(t, b)} else {})
      ensures !ok ==> owners == old(owners) && streams == old(streams)
    {
      hide Owned, Mapped, Exclusive, StrandedIn;
      if IsHeld(held, t, b) {
        return false;
      }
      GrantOwned(held, claims, owners, c, t, b, s);
      GrantMapped(streams, claims, owners, c, t, b, s);
      GrantExclusive(held, claims, trees, treeClaims, c, t, b, s);
      GrantStrands(held, claims, owners, c, t, b, s);
      held := held[t := (if t in held then held[t] else {}) + {b}];
      if s.Some? {
        streams := streams[t := (if t in streams then streams[t] else map[])[b := s.value]];
      }
      claims, owners := WithGrant(claims, c, t, b, s), owners[(t, b) := c];
      ok := true;
    }

    /** Frees every branch of the claim, those added on the way too; again, it does nothing. */
    method Release(c: nat)
      requires Valid() && c < |claims|
      modifies this`held, this`streams, this`claims, this`owners, this`released
      ensures Valid() && Stranded() == old(Stranded())
      ensures claims == old(claims)[c := old(claims)[c].(done := true)]
      ensures old(claims)[c].done ==> held == old(held) && streams == old(streams) && released == old(released)
      ensures !old(claims)[c].done ==> held == Freed(old(held), old(claims)[c].tree, Elements(old(claims)[c].branches))
      ensures !old(claims)[c].done ==> released == old(released) + (if old(claims)[c].stream.Some? then {old(claims)[c].stream.value} else {})
    {
      hide Owned, Mapped, Exclusive, Freed, StreamsFreed, StrandedIn;
      if claims[c].done {
        assert claims[c := claims[c].(done := true)] == claims;
        return;
      }
      var claim := claims[c];
      ghost var bs := Elements(claim.branches);
      ReleaseOwned(held, claims, owners, c);
      ReleaseMapped(held, streams, claims, owners, c);
      ReleaseExclusive(held, claims, trees, treeClaims, c, bs);
      ReleaseStrands(held, claims, owners, c);
      held := FreeBranches(held, claim.tree, claim.branches);
      if claim.stream.Some? {
        streams := FreeStreams(streams, claim.tree, claim.branches);
        released := released + {claim.stream.value};
      }
      claims := claims[c := claim.(done := true)];
      owners := OwnersFreed(owners, claim.tree, bs);
    }

    // ---- lookups and tree claims ----

    /** Whether a branch is taken, by a run or with its whole tree, and the stream of the run when that
        takes submitted messages. */
    method Holder(t: Tree, b: Branch) returns (s: Option<StreamId>, isHeld: bool)
      requires Valid()
      ensures isHeld <==> t in trees || IsHeld(held, t, b)
      ensures s.Some? ==> isHeld && t !in trees && (t, b) in owners && owners[(t, b)] < |claims|
      ensures s.Some? ==> var c := claims[owners[(t, b)]]; c.stream == s && c.tree == t && b in c.branches && (c.done <==> (t, b) in Stranded())
      ensures isHeld && t !in trees && s.None? ==> (t, b) in owners && owners[(t, b)] < |claims| && claims[owners[(t, b)]].stream.None?
    {
      hide Exclusive;
      if t in trees {
        return None, true;
      }
      assert IsHeld(held, t, b) <==> (t, b) in owners;
      if !IsHeld(held, t, b) {
        return None, false;
      }
      assert IsRegistered(streams, t, b) <==> claims[owners[(t, b)]].stream.Some?;
      s := if IsRegistered(streams, t, b) then Some(streams[t][b]) else None;
      isHeld := true;
    }

    /** Reserves a whole tree, when nobody has any of it. */
    method ClaimTree(t: Tree) returns (r: Granted)
      requires Valid()
      modifies this`trees, this`treeClaims
      ensures Valid() && Stranded() == old(Stranded())
      ensures r == if t in old(trees) || t in held then RunActive else Ok(|old(treeClaims)|)
      ensures treeClaims == if r.Ok? then old(treeClaims) + [TreeClaim(t, false)] else old(treeClaims)
      ensures trees == if r.Ok? then old(trees) + {t} else old(trees)
    {
      hide Owned, Mapped;
      if t in trees || (t in held && held[t] != {}) {
        return RunActive;
      }
      r := Ok(|treeClaims|);
      TreeGranted(held, claims, owners, trees, treeClaims, t);
      trees, treeClaims := trees + {t}, treeClaims + [TreeClaim(t, false)];
    }

    method ReleaseTree(k: nat)
      requires Valid() && k < |treeClaims|
      modifies this`trees, this`treeClaims
      ensures Valid() && Stranded() == old(Stranded()) && treeClaims == old(treeClaims)[k := old(treeClaims)[k].(done := true)]
      ensures trees == if old(treeClaims)[k].done then old(trees) else old(trees) - {old(treeClaims)[k].tree}
    {
      hide Owned, Mapped;
      if treeClaims[k].done {
        return;
      }
      TreeReleased(held, claims, trees, treeClaims, k);
      trees, treeClaims := trees - {treeClaims[k].tree}, treeClaims[k := treeClaims[k].(done := true)];
    }

    // ---- what holds at every point ----

    /** No branch has two live holders. */
    lemma OneHolder(c: nat, d: nat, b: Branch)
      requires Valid() && c < |claims| && d < |claims| && !claims[c].done && !claims[d].done
      requires claims[c].tree == claims[d].tree && b in claims[c].branches && b in claims[d].branches
      ensures c == d
    {
      hide Mapped, Exclusive;
      assert owners[(claims[c].tree, b)] == c;
    }

    /** A tree claim and a run never share a tree, and a tree has one claim. */
    lemma TreeClaimIsAlone(k: nat)
      requires Valid() && k < |treeClaims| && !treeClaims[k].done
      ensures forall c | 0 <= c < |claims| && !claims[c].done :: claims[c].tree != treeClaims[k].tree
      ensures forall j | 0 <= j < |treeClaims| && j != k && !treeClaims[j].done :: treeClaims[j].tree != treeClaims[k].tree
    {
      assert treeClaims[k] in treeClaims;
      forall c | 0 <= c < |claims| && !claims[c].done
        ensures claims[c].tree != treeClaims[k].tree
      {
        LiveTreeIsUnclaimed(c);
      }
    }

    /** While a run holds a branch of a tree, nobody holds the tree. */
    lemma LiveTreeIsUnclaimed(c: nat)
      requires Valid() && c < |claims| && !claims[c].done
      ensures claims[c].tree in held && claims[c].tree !in trees
    {
      hide Mapped;
      LiveIsHeld(held, claims, owners, c);
    }

    /** A stranded branch is held, so no run is granted it and its tree cannot be claimed. */
    lemma StrandedIsHeld(t: Tree, b: Branch)
      requires Valid() && (t, b) in Stranded()
      ensures IsHeld(held, t, b)
    {
      hide Mapped, Exclusive;
    }
  }

  // ---- every interleaving ----

  datatype Event =
    | Claims(t: Tree, b: Branch, s: Option<StreamId>)
    | Extends(c: nat, b: Branch)
    | Releases(c: nat)
    | ClaimsTree(t: Tree)
    | FreesTree(k: nat)

  /** Takes one step of any goroutine. `late` says that it granted a free branch to a released claim. */
  method Step(g: Guard, e: Event) returns (ghost late: bool)
    requires g.Valid()
    modifies g
    ensures g.Valid() && old(g.Stranded()) <= g.Stranded()
    ensures late <==> g.Stranded() != old(g.Stranded())
    ensures late <==> (e.Extends? && e.c < |old(g.claims)| && old(g.claims)[e.c].done &&
                       e.b !in old(g.claims)[e.c].branches && !IsHeld(old(g.held), old(g.claims)[e.c].tree, e.b))
    ensures e.Claims? && e.t !in old(g.trees) && !IsHeld(old(g.held), e.t, e.b) ==> g.claims == old(g.claims) + [Claim(e.t, e.s, [e.b], false)]
    ensures e.Extends? && e.c < |old(g.claims)| && !IsHeld(old(g.held), old(g.claims)[e.c].tree, e.b) ==> e.c < |g.claims| && e.b in g.claims[e.c].branches
    ensures e.Releases? && e.c < |old(g.claims)| ==> g.claims == old(g.claims)[e.c := old(g.claims)[e.c].(done := true)]
    ensures e.ClaimsTree? && e.t !in old(g.trees) && e.t !in old(g.held) ==> g.trees == old(g.trees) + {e.t}
    ensures e.FreesTree? && e.k < |old(g.treeClaims)| ==> g.treeClaims == old(g.treeClaims)[e.k := old(g.treeClaims)[e.k].(done := true)]
  {
    hide Owned, Mapped, Exclusive, StrandedIn, WithBranch, Freed;
    ghost var before := g.Stranded();
    match e {
      case Claims(t, b, s) =>
        var _ := g.NewClaim(t, b, s);
      case Extends(c, b) =>
        if c < |g.claims| {
          ghost var claim := g.claims[c];
          if (claim.tree, b) in g.Stranded() {
            g.StrandedIsHeld(claim.tree, b);
          }
          var _ := g.Add(c, b);
        }
      case Releases(c) =>
        if c < |g.claims| {
          g.Release(c);
        }
      case ClaimsTree(t) =>
        var _ := g.ClaimTree(t);
      case FreesTree(k) =>
        if k < |g.treeClaims| {
          g.ReleaseTree(k);
        }
    }
    late := g.Stranded() != before;
  }


  /** Over every interleaving from any point on, what is stranded stays so, and hence stays held. */
  method Continue(g: Guard, events: seq<Event>) returns (ghost late: nat)
    requires g.Valid()
    modifies g
    ensures g.Valid() && old(g.Stranded()) <= g.Stranded()
    ensures forall k | k in old(g.Stranded()) :: IsHeld(g.held, k.0, k.1)
    ensures late == 0 <==> g.Stranded() == old(g.Stranded())
  {
    hide Guard.Valid, StrandedIn;
    late := 0;
    var i := 0;
    ghost var before := g.Stranded();
    while i < |events|
      invariant i <= |events| && g.Valid() && before <= g.Stranded()
      invariant late == 0 <==> g.Stranded() == before
    {
      ghost var was := Step(g, events[i]);
      late := late + (if was then 1 else 0);
      i := i + 1;
    }
    forall k | k in before
      ensures IsHeld(g.held, k.0, k.1)
    {
      g.StrandedIsHeld(k.0, k.1);
    }
  }

  /** From the start, every held branch belongs to a live claim exactly when no free branch was ever
      granted to a claim that had been released. */
  method Replay(events: seq<Event>) returns (g: Guard, ghost late: nat)
    ensures fresh(g) && g.Valid()
    ensures late == 0 <==> forall k | k in g.owners :: !g.claims[g.owners[k]].done
  {
    hide Mapped, Exclusive, StrandedIn;
    g := new Guard();
    late := Continue(g, events);
    assert g.Stranded() == {} <==> forall k | k in g.owners :: !g.claims[g.owners[k]].done;
  }

  lemma NewIsHeldAlone(t: Tree, b: Branch, other: Branch)
    requires other != b
    ensures !IsHeld(map[], t, b) && !IsHeld(Freed(WithBranch(map[], t, b), t, Elements([b])), t, other)
  {
    FreedIsNotHeld(WithBranch(map[], t, b), t, Elements([b]), t, other);
  }

  /** The case itself: a run that ended is granted another branch, and whatever happens from then on,
      that branch is held and no run can have it. */
  method LateGrantIsNeverFreed(t: Tree, b: Branch, other: Branch, s: Option<StreamId>, events: seq<Event>) returns (g: Guard, r: Granted)
    requires other != b
    ensures fresh(g) && g.Valid() && (t, other) in g.Stranded()
    ensures IsHeld(g.held, t, other) && r == RunActive
  {
    hide Guard.Valid, StrandedIn, WithBranch, Freed;
    g := new Guard();
    r := g.NewClaim(t, b, s);
    NewIsHeldAlone(t, b, other);
    g.Release(0);
    var ok := g.Add(0, other);
    ghost var late := Continue(g, events);
    g.StrandedIsHeld(t, other);
    r := g.NewClaim(t, other, s);
  }

  /** The loop of a release over the branches of its claim. */
  method FreeBranches(held: Held, t: Tree, branches: seq<Branch>) returns (left: Held)
    ensures left == Freed(held, t, Elements(branches))
  {
    left := held;
    var i := 0;
    while i < |branches|
      invariant i <= |branches|
      invariant t in held ==> t in left && left[t] == held[t] - Elements(branches[..i]) && left == held[t := left[t]]
      invariant t !in held ==> left == held
    {
      if t in left {
        left := left[t := left[t] - {branches[i]}];
      }
      assert Elements(branches[..i + 1]) == Elements(branches[..i]) + {branches[i]};
      i := i + 1;
    }
    assert branches[..i] == branches;
    if t in left && left[t] == {} {
      left := left - {t};
    }
  }

  method FreeStreams(streams: Streams, t: Tree, branches: seq<Branch>) returns (left: Streams)
    ensures left == StreamsFreed(streams, t, Elements(branches))
  {
    left := streams;
    var i := 0;
    while i < |branches|
      invariant i <= |branches|
      invariant t in streams ==> t in left && left[t] == streams[t] - Elements(branches[..i]) && left == streams[t := left[t]]
      invariant t !in streams ==> left == streams
    {
      if t in left {
        left := left[t := left[t] - {branches[i]}];
      }
      assert Elements(branches[..i + 1]) == Elements(branches[..i]) + {branches[i]};
      i := i + 1;
    }
    assert branches[..i] == branches;
    if t in left && left[t] == map[] {
      left := left - {t};
    }
  }
}
