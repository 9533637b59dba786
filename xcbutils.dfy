/**
 * Xcb::Atom from xembed-sni-proxy: an atom name interned with an unchecked
 * request whose reply is fetched lazily, at most once. The X server's
 * reply is an input: Some(atom) for a reply, None for a null reply.
 */
module Xcb {
  import opened Wrappers

  /** CARD32: the width of xcb_atom_t and of a cookie's sequence number. */
  newtype Uint32 = x: int | 0 <= x < 0x1_0000_0000

  newtype Byte = x: int | 0 <= x < 0x100

  /** XCB_ATOM_NONE */
  const AtomNone: Uint32 := 0

  /** The fields getReply reads and writes: m_retrieved, m_cookie.sequence, m_atom. */
  datatype AtomState = AtomState(retrieved: bool, sequence: Uint32, atom: Uint32)

  /**
   * The reply is still to be fetched: it was not retrieved, and the request
   * was sent (xcb hands out sequence 0 when the connection has failed).
   */
  predicate Pending(s: AtomState)
  {
    !s.retrieved && s.sequence != 0
  }

  /** The state right after the constructor sent the intern request. */
  function Interned(sequence: Uint32): AtomState
  {
    AtomState(false, sequence, AtomNone)
  }

  /** getReply: fetch a pending reply; a null reply leaves the atom as it was. */
  function Resolve(s: AtomState, reply: Option<Uint32>): (r: AtomState)
    ensures r.sequence == s.sequence
    // a reply is fetched at most once: afterwards nothing is pending
    ensures !Pending(r)
    ensures !Pending(s) ==> r == s
    ensures Pending(s) ==> r.retrieved
    // the atom changes only to the atom of a non-null reply
    ensures r.atom != s.atom ==> Pending(s) && reply == Some(r.atom)
    ensures Pending(s) && reply.Some? ==> r.atom == reply.value
  {
    if !Pending(s) then s
    else AtomState(true, s.sequence, if reply.Some? then reply.value else s.atom)
  }

  /** Successive getReply calls, each offered a reply. */
  function ResolveAll(s: AtomState, replies: seq<Option<Uint32>>): AtomState
    decreases replies
  {
    if replies == [] then s else ResolveAll(Resolve(s, replies[0]), replies[1..])
  }

  /** Only the first call can change anything: later replies are never consulted. */
  lemma {:induction false} FirstReplyDecides(s: AtomState, replies: seq<Option<Uint32>>)
    requires replies != []
    ensures ResolveAll(s, replies) == Resolve(s, replies[0])
    decreases replies
  {
    if |replies| > 1 {
      FirstReplyDecides(Resolve(s, replies[0]), replies[1..]);
    }
  }

  /** The values that successive conversions to xcb_atom_t return. */
  function Conversions(s: AtomState, replies: seq<Option<Uint32>>): seq<Uint32>
    decreases replies
  {
    if replies == [] then []
    else [Resolve(s, replies[0]).atom] + Conversions(Resolve(s, replies[0]), replies[1..])
  }

  /** Every conversion returns what the first one returned. */
  lemma {:induction false} ConversionsAgree(s: AtomState, replies: seq<Option<Uint32>>)
    ensures |Conversions(s, replies)| == |replies|
    ensures forall i :: 0 <= i < |replies| ==> Conversions(s, replies)[i] == Resolve(s, replies[0]).atom
    decreases replies
  {
    if replies != [] {
      var r := Resolve(s, replies[0]);
      ConversionsAgree(r, replies[1..]);
      if |replies| > 1 {
        assert Resolve(r, replies[1..][0]) == r;
      }
    }
  }

  /**
   * A freshly interned atom is valid iff the request was sent and the
   * server answered with an atom other than XCB_ATOM_NONE.
   */
  lemma FreshAtomValidity(sequence: Uint32, reply: Option<Uint32>)
    ensures var r := Resolve(Interned(sequence), reply);
      && r.atom == (if sequence != 0 && reply.Some? then reply.value else AtomNone)
      && (r.atom != AtomNone <==> sequence != 0 && reply.Some? && reply.value != AtomNone)
  {
  }

  class Atom {
    var retrieved: bool
    /** m_cookie.sequence */
    const sequence: Uint32
    var atom: Uint32
    const name: seq<Byte>

    function State(): AtomState
      reads this
    {
      AtomState(retrieved, sequence, atom)
    }

    /** `sequence` is the sequence number xcb_intern_atom_unchecked returned. */
    constructor (name: seq<Byte>, sequence: Uint32)
      ensures State() == Interned(sequence)
      ensures this.name == name
    {
      retrieved := false;
      this.sequence := sequence;
      atom := AtomNone;
      this.name := name;
    }

    /** `reply` is what xcb_intern_atom_reply would return; it is consulted only when pending. */
    method GetReply(reply: Option<Uint32>)
      modifies this`retrieved, this`atom
      ensures State() == Resolve(old(State()), reply)
    {
      if retrieved || sequence == 0 {
        return;
      }
      if reply.Some? {
        atom := reply.value;
      }
      retrieved := true;
    }

    /** operator xcb_atom_t: resolve, then return the atom. */
    method ToAtomId(reply: Option<Uint32>) returns (a: Uint32)
      modifies this`retrieved, this`atom
      ensures State() == Resolve(old(State()), reply)
      ensures a == atom
    {
      GetReply(reply);
      a := atom;
    }

    /** isValid, both overloads: resolve, then compare with XCB_ATOM_NONE. */
    method IsValid(reply: Option<Uint32>) returns (valid: bool)
      modifies this`retrieved, this`atom
      ensures State() == Resolve(old(State()), reply)
      ensures valid <==> atom != AtomNone
    {
      GetReply(reply);
      valid := atom != AtomNone;
    }

    /** The destructor: whether it discards the reply with xcb_discard_reply. */
    method Destroy() returns (discard: bool)
      ensures discard <==> Pending(State())
    {
      discard := Pending(State());
    }
  }

  /**
   * A fresh atom converted twice yields one value, decided by the first
   * reply; once resolved, destroying it discards nothing.
   */
  method ConvertTwice(name: seq<Byte>, sequence: Uint32, first: Option<Uint32>, second: Option<Uint32>)
    returns (a: Uint32, b: Uint32, discard: bool)
    ensures a == b
    ensures a == if sequence != 0 && first.Some? then first.value else AtomNone
    ensures !discard
  {
    var atom := new Atom(name, sequence);
    a := atom.ToAtomId(first);
    b := atom.ToAtomId(second);
    discard := atom.Destroy();
  }
}
