/**
 The open key exchanges of the core, by exchange id. Each owns one live native handle, and
 the native table holds no other.
 */
module Exchanges {
  import opened Wrappers
  import opened Devices
  import opened Pake

  datatype Open = Open(pake: Exchange, context: Bytes, key: Bytes, name: string, generation: string, expires: int)

  function Unexpired(entries: map<string, Open>, now: int): map<string, Open> {
    map id | id in entries && now < entries[id].expires :: entries[id]
  }

  class OpenExchanges {
    const native: Native
    var entries: map<string, Open>
    ghost var owned: set<Exchange>  // among them every open exchange

    ghost function Handles(): map<string, nat>
      reads this, owned
      requires forall id :: id in entries ==> entries[id].pake in owned
    {
      map id | id in entries :: entries[id].pake.handle
    }

    /** Handles and open exchanges correspond one to one, and no call ever missed its handle. */
    ghost predicate Valid()
      reads this, native, owned
    {
      && native.Valid() && native.misses == 0
      && (forall id :: id in entries ==> entries[id].pake in owned && entries[id].pake.native == native)
      && OneToOne(Handles(), native.states)
    }

    constructor ()
      ensures Valid() && entries == map[] && owned == {} && fresh(native)
    {
      native := new Native();
      entries, owned := map[], {};
    }

    /** As many live handles as open exchanges. */
    lemma Conserved()
      requires Valid()
      ensures |native.states| == |entries|
    {
      InjectiveImage(Handles(), native.states);
      assert Handles().Keys == entries.Keys;
      assert |Handles()| == |Handles().Keys| && |entries| == |entries.Keys|;
    }

    method Start(id: string, code: string, context: Bytes, key: Bytes, name: string, generation: string, expires: int)
      returns (ok: bool)
      requires Valid() && id !in entries
      modifies this, native
      ensures Valid()
      ensures !ok ==> entries == old(entries) && owned == old(owned)
      ensures !ok ==> !CodeOk(code) || |old(entries)| == HANDLE_LIMIT || native.failures > old(native.failures)
      ensures native.outcomes == old(native.outcomes)
      ensures ok ==> native.failures == old(native.failures)
      ensures ok ==> id in entries && entries == old(entries)[id := entries[id]]
      ensures fresh(owned - old(owned))
      ensures ok ==> entries[id] == Open(entries[id].pake, context, key, name, generation, expires)
    {
      hide OneToOne, Native.Valid;
      Conserved();
      var e := Exchange.Begin(native, 1, code);
      assert Handles() == old(Handles());
      if e == null { return false; }
      Adopt(id, Open(e, context, key, name, generation, expires), old(native.states));
      return true;
    }

    /** Put an exchange on the table, whose handle is the newest of the live ones. */
    method Adopt(id: string, entry: Open, ghost others: set<nat>)
      requires native.Valid() && native.misses == 0 && id !in entries
      requires forall k :: k in entries ==> entries[k].pake in owned && entries[k].pake.native == native
      requires entry.pake.native == native && entry.pake !in owned
      requires OneToOne(Handles(), others) && entry.pake.handle !in others && native.states == others + {entry.pake.handle}
      modifies this`entries, this`owned
      ensures Valid() && entries == old(entries)[id := entry] && owned == old(owned) + {entry.pake}
    {
      hide OneToOne, Native.Valid;
      OneToOneAdds(Handles(), others, id, entry.pake.handle);
      owned := owned + {entry.pake};
      entries := entries[id := entry];
      assert Handles() == old(Handles())[id := entry.pake.handle];
    }

    /** Close the exchange of an id, whose handle goes with it. */
    method Drop(id: string)
      requires Valid() && id in entries
      modifies this, native, owned
      ensures Valid() && owned == old(owned) && entries == old(entries) - {id}
      ensures native.outcomes == old(native.outcomes) && native.failures == old(native.failures)
    {
      var none := Consume(id, None);
    }

    /**
     Take an exchange off the table and close it. With a peer message its handle is finished
     for the key, without one it is freed.
     */
    method Consume(id: string, peer: Option<Bytes>) returns (key: Option<Bytes>)
      requires Valid() && id in entries
      modifies this, native, owned
      ensures Valid() && owned == old(owned) && entries == old(entries) - {id}
      ensures key.Some? ==> |key.value| == KEY_SIZE && peer.Some? && |peer.value| == MESSAGE_SIZE
      ensures native.spent == old(native.spent) + {old(entries[id].pake.handle)}
      ensures native.outcomes == if peer.Some? && |peer.value| == MESSAGE_SIZE then old(native.outcomes)[old(entries[id].pake.handle) := key]
                                 else old(native.outcomes)
      ensures native.failures == old(native.failures)
    {
      hide OneToOne, Native.Valid;
      var p := entries[id];
      Apart(id);
      OneToOneDrops(Handles(), native.states, id);
      ghost var was := Handles();
      entries := entries - {id};
      key := p.pake.Settle(peer);
      assert Handles() == was - {id};
    }

    /** The handle of an open exchange is live, and no other exchange shares its owner. */
    lemma Apart(id: string)
      requires Valid() && id in entries
      ensures entries[id].pake.handle in native.states && entries[id].pake.handle != 0
      ensures forall k :: k in entries && k != id ==> entries[k].pake != entries[id].pake
    {
      forall k | k in entries && k != id ensures entries[k].pake != entries[id].pake {
        assert Handles()[k] != Handles()[id];
      }
      assert Handles()[id] in native.states;
    }

    /** Close and forget the exchanges whose time is over. */
    method PurgeExpired(now: int)
      requires Valid()
      modifies this, native, owned
      ensures Valid() && owned == old(owned) && entries == Unexpired(old(entries), now)
      ensures native.outcomes == old(native.outcomes) && native.failures == old(native.failures)
    {
      hide OneToOne, Native.Valid, OpenExchanges.Valid;
      var todo := entries.Keys;
      while todo != {}
        invariant Valid() && todo <= entries.Keys && owned == old(owned)
        invariant native.outcomes == old(native.outcomes) && native.failures == old(native.failures)
        invariant forall id :: id in entries ==> id in old(entries) && entries[id] == old(entries)[id]
        invariant forall id :: id in old(entries) && now < old(entries)[id].expires ==> id in entries
        invariant forall id :: id in entries && id !in todo ==> now < entries[id].expires
      {
        var id :| id in todo;
        if now >= entries[id].expires {
          Drop(id);
        }
        todo := todo - {id};
      }
    }

    method Clear()
      requires Valid()
      modifies this, native, owned
      ensures Valid() && owned == old(owned) && entries == map[] && native.states == {}
    {
      hide OneToOne, Native.Valid, OpenExchanges.Valid;
      while entries != map[]
        invariant Valid() && owned == old(owned)
        decreases entries.Keys
      {
        assert entries.Keys != {};
        var id :| id in entries;
        Drop(id);
      }
      Conserved();
    }
  }

  /** `f` maps distinct ids to distinct handles, and its image is exactly `image`. */
  ghost predicate OneToOne(f: map<string, nat>, image: set<nat>) {
    && (forall a, b :: a in f && b in f && a != b ==> f[a] != f[b])
    && (forall a :: a in f ==> f[a] in image)
    && (forall h :: h in image ==> exists a :: a in f && f[a] == h)
  }

  lemma OneToOneAdds(f: map<string, nat>, image: set<nat>, id: string, h: nat)
    requires OneToOne(f, image) && id !in f && h !in image
    ensures OneToOne(f[id := h], image + {h})
  {
    var g := f[id := h];
    forall k | k in image + {h} ensures exists a :: a in g && g[a] == k {
      if k == h {
        assert g[id] == h;
      } else {
        var a :| a in f && f[a] == k;
        assert g[a] == k;
      }
    }
  }

  lemma OneToOneDrops(f: map<string, nat>, image: set<nat>, id: string)
    requires OneToOne(f, image) && id in f
    ensures OneToOne(f - {id}, image - {f[id]})
  {
    var g := f - {id};
    forall k | k in image - {f[id]} ensures exists a :: a in g && g[a] == k {
      var a :| a in f && f[a] == k;
      assert g[a] == k;
    }
  }

  lemma {:induction false} InjectiveImage(f: map<string, nat>, image: set<nat>)
    requires OneToOne(f, image)
    ensures |image| == |f|
    decreases |f|
  {
    if f == map[] {
      assert image == {};
    } else {
      assert f.Keys != {};
      var a :| a in f;
      var g := f - {a};
      assert g.Keys == f.Keys - {a};
      OneToOneDrops(f, image, a);
      InjectiveImage(g, image - {f[a]});
    }
  }
}
