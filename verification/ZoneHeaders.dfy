/** The zone headers of the slab heap and the free chunks they lead to through the c_next links in
    the chunks themselves (software/src/slab.c:156-181, 523-552, 603-626, 809-821). */
module ZoneHeaders {
  import opened Chains
  import opened SlabSpec

  /** struct slab_zone; z_next is in ZoneLinks. */
  datatype Header = Header(zi: nat, size: nat, nmax: int, nfree: int, base: nat, uindex: int, freechunk: int)

  ghost predicate Head(h: Header, chunk: seq<int>, z: Zone) {
    && h == Header(z.zi, z.size, z.nmax, z.nfree, z.base, z.uindex, h.freechunk)
    && Chain(chunk, h.freechunk, z.free)
  }

  ghost predicate Heads(headers: map<nat, Header>, chunk: seq<int>, zones: map<nat, Zone>) {
    headers.Keys == zones.Keys && forall p :: p in zones ==> Head(headers[p], chunk, zones[p])
  }

  /** Address x is not the start of a free chunk. */
  ghost predicate NotFree(zones: map<nat, Zone>, x: nat) {
    forall p :: p in zones ==> x !in zones[p].free
  }

  lemma HeadsWith(headers: map<nat, Header>, chunk: seq<int>, zones: map<nat, Zone>, p: nat, h: Header, z: Zone)
    requires Heads(headers, chunk, zones) && Head(h, chunk, z)
    ensures Heads(headers[p := h], chunk, zones[p := z])
  {
    hide Head;
  }

  lemma HeadsWritten(headers: map<nat, Header>, chunk: seq<int>, zones: map<nat, Zone>, x: nat, v: int)
    requires Heads(headers, chunk, zones) && NotFree(zones, x) && x < |chunk|
    ensures Heads(headers, chunk[x := v], zones)
  {
    hide Chain;
    forall p | p in zones ensures Head(headers[p], chunk[x := v], zones[p]) {
      ChainOther(chunk, headers[p].freechunk, zones[p].free, x, v);
    }
  }

  lemma PutHead(h: Header, chunk: seq<int>, z: Zone, a: nat)
    requires Head(h, chunk, z) && a !in z.free && a < |chunk|
    ensures Head(h.(nfree := h.nfree + 1, freechunk := a), chunk[a := h.freechunk], PutChunk(z, a))
  {
    ChainPush(chunk, h.freechunk, z.free, a);
    hide Chain;
  }

  class ZoneHeaders {
    const chunk: array<int>            // c_next of the chunk at each address
    var headers: map<nat, Header>      // by the first page of the zone
    ghost var zones: map<nat, Zone>

    ghost predicate Valid()
      reads this, chunk
    {
      Heads(headers, chunk[..], zones)
    }

    constructor (bytes: nat)
      ensures Valid() && fresh(chunk) && chunk.Length == bytes && zones == map[]
    {
      chunk := new int[bytes];
      headers, zones := map[], map[];
    }

    lemma HeadAt(page: nat)
      requires Valid() && page in zones
      ensures page in headers && Head(headers[page], chunk[..], zones[page])
    {
      hide Head;
    }

    /** A chunk of a zone that has room: never used memory first, then the free list. */
    method Take(page: nat) returns (a: nat)
      requires Valid() && page in zones
      requires zones[page].uindex >= 0 && (zones[page].uindex + 1 == zones[page].nmax ==> zones[page].free != [])
      modifies this
      ensures Valid() && a == TakeChunk(old(zones[page])).1
      ensures zones == old(zones)[page := TakeChunk(old(zones[page])).0]
    {
      hide Heads, Chain;
      HeadAt(page);
      ghost var z := zones[page];
      var h := headers[page];
      var h' := h.(nfree := h.nfree - 1);
      if h.uindex + 1 != h.nmax {
        h' := h'.(uindex := h.uindex + 1);
        a := h.base + h'.uindex * h.size;
      } else {
        ChainTail(chunk[..], h.freechunk, z.free);
        a := h.freechunk;
        h' := h'.(freechunk := chunk[a]);
      }
      HeadsWith(headers, chunk[..], zones, page, h', TakeChunk(z).0);
      headers := headers[page := h'];
      zones := zones[page := TakeChunk(z).0];
    }

    /** The chunk at a becomes the first free one of its zone. */
    method Put(page: nat, a: nat)
      requires Valid() && page in zones && NotFree(zones, a) && a < chunk.Length
      modifies this, chunk
      ensures Valid() && zones == old(zones)[page := PutChunk(old(zones[page]), a)]
    {
      hide Heads, Chain, Head, PutChunk;
      HeadAt(page);
      var h := headers[page];
      PutHead(h, chunk[..], zones[page], a);
      HeadsWritten(headers, chunk[..], zones, a, h.freechunk);
      ghost var before := chunk[..];
      chunk[a] := h.freechunk;
      assert chunk[..] == before[a := h.freechunk];
      var h' := h.(nfree := h.nfree + 1, freechunk := a);
      HeadsWith(headers, chunk[..], zones, page, h', PutChunk(zones[page], a));
      headers := headers[page := h'];
      zones := zones[page := PutChunk(zones[page], a)];
    }

    /** The header of a new zone with its first chunk taken */
    method Open(zsize: nat, page: nat, zi: nat, size: nat) returns (a: nat)
      requires Valid() && size > 0
      modifies this
      ensures Valid() && zones == old(zones)[page := NewZone(zsize, page, zi, size)]
      ensures a == NewZone(zsize, page, zi, size).base
    {
      hide Heads, Offset;
      var nmax := (zsize - Offset(size)) / size;
      a := page * PAGE + Offset(size);
      var h := Header(zi, size, nmax, nmax - 1, a, 0, NULL);
      HeadsWith(headers, chunk[..], zones, page, h, NewZone(zsize, page, zi, size));
      headers := headers[page := h];
      zones := zones[page := NewZone(zsize, page, zi, size)];
    }

    /** The header of a zone that is retired stops being one. */
    method Close(page: nat)
      requires Valid()
      modifies this
      ensures Valid() && zones == old(zones) - {page}
    {
      hide Head;
      headers, zones := headers - {page}, zones - {page};
    }

    /** A caller writes to its own memory. */
    method Write(x: nat, v: int)
      requires Valid() && NotFree(zones, x) && x < chunk.Length
      modifies chunk
      ensures Valid()
    {
      hide Heads;
      HeadsWritten(headers, chunk[..], zones, x, v);
      ghost var before := chunk[..];
      chunk[x] := v;
      assert chunk[..] == before[x := v];
    }
  }
}
