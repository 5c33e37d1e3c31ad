/**
 * The per-stream subscriber table of a live service: the map from a
 * connection to its ready flag, and what one call of each callback and of
 * `send` does to it, as functions on values.
 */
module Subscribers {
  import opened Wrappers

  /** A websocket connection. The table is a std::map keyed by the
      connection's address, so it is iterated in ascending key order;
      the key is modelled by a natural number with that order. */
  type Conn = nat

  newtype byte = x: int | 0 <= x < 256

  /** A binary frame (the compressed image handed to `send`). */
  type Frame = seq<byte>

  /** The `ready_` table: connection to "may receive one frame". */
  type ReadyMap = map<Conn, bool>

  /** One `send_binary(data, con)` call made by the transport. */
  datatype Delivery = Delivery(to: Conn, frame: Frame)

  /** A JSON control message: each top-level field present in it, with how
      its value reads as a boolean (`None`: the value is not a boolean). */
  type Message = map<string, Option<bool>>

  /** `data.get<bool>(field)`: the boolean in the configured field, or
      `None` where the lookup or the conversion throws. */
  function ReadyField(msg: Message, field: string): (r: Option<bool>)
    ensures field in msg ==> r == msg[field]
    ensures field !in msg ==> r == None
  {
    if field in msg then msg[field] else None
  }

  /** The connect callback: `ready_.emplace(con, false)`. */
  function Connected(m: ReadyMap, c: Conn): (r: ReadyMap)
    ensures r.Keys == m.Keys + {c}
    ensures c !in m ==> !r[c]
    ensures forall d :: d in m ==> r[d] == m[d]
  {
    if c in m then m else m[c := false]
  }

  /** The disconnect callback: `ready_.erase(con)`. */
  function Disconnected(m: ReadyMap, c: Conn): (r: ReadyMap)
    ensures r.Keys == m.Keys - {c}
    ensures forall d :: d in r ==> r[d] == m[d]
  {
    m - {c}
  }

  /** The message callback, given what the configured field reads as:
      only a field reading `true` for a connection in the table sets its
      flag; every other case returns early or has its exception swallowed. */
  function Signalled(m: ReadyMap, c: Conn, field: Option<bool>): (r: ReadyMap)
    ensures r.Keys == m.Keys
    ensures forall d :: d in m && d != c ==> r[d] == m[d]
    ensures c in m ==> (r[c] <==> m[c] || field == Some(true))
  {
    if field == Some(true) && c in m then m[c := true] else m
  }

  /** The connections that are owed a frame. */
  function ReadySet(m: ReadyMap): (r: set<Conn>)
    ensures forall c :: c in r <==> c in m && m[c]
  {
    set c | c in m && m[c]
  }

  /** The table after `send`: every flag cleared, no key added or removed. */
  function Drained(m: ReadyMap): (r: ReadyMap)
    ensures r.Keys == m.Keys
    ensures ReadySet(r) == {}
  {
    map c | c in m :: false
  }

  /** The smallest connection of a non-empty set. */
  ghost function Min(s: set<Conn>): (r: Conn)
    requires s != {}
    ensures r in s
    ensures forall c :: c in s ==> r <= c
  {
    var x :| x in s;
    if s - {x} == {} then
      assert forall c :: c in s ==> c == x by {
        forall c | c in s ensures c == x { assert c !in s - {x}; }
      }
      x
    else
      var y := Min(s - {x});
      assert forall c :: c in s ==> c == x || c in s - {x};
      if x < y then x else y
  }

  /** The connections of `s` in the order `std::map` visits them:
      the smallest first. */
  ghost function Ascending(s: set<Conn>): seq<Conn>
    decreases |s|
  {
    if s == {} then []
    else
      var m := Min(s);
      [m] + Ascending(s - {m})
  }

  /** `Ascending` lists every connection of the set and no other. */
  lemma {:induction false} AscendingMembers(s: set<Conn>)
    ensures forall c :: c in Ascending(s) <==> c in s
    decreases |s|
  {
    if s != {} {
      var m := Min(s);
      AscendingMembers(s - {m});
      assert Ascending(s) == [m] + Ascending(s - {m});
    }
  }

  /** `Ascending` is as long as the set. */
  lemma {:induction false} AscendingLength(s: set<Conn>)
    ensures |Ascending(s)| == |s|
    decreases |s|
  {
    if s != {} {
      var m := Min(s);
      AscendingLength(s - {m});
      assert Ascending(s) == [m] + Ascending(s - {m});
    }
  }

  /** `Ascending` is strictly increasing, so it names no connection twice. */
  lemma {:induction false} AscendingSorted(s: set<Conn>)
    ensures forall i, j :: 0 <= i < j < |Ascending(s)| ==> Ascending(s)[i] < Ascending(s)[j]
    decreases |s|
  {
    if s != {} {
      var m := Min(s);
      var rest := Ascending(s - {m});
      var r := Ascending(s);
      assert r == [m] + rest;
      AscendingSorted(s - {m});
      assert forall k :: 0 <= k < |rest| ==> m < rest[k] by {
        forall k | 0 <= k < |rest| ensures m < rest[k] {
          AscendingMembers(s - {m});
          assert rest[k] in rest;
        }
      }
      forall i, j | 0 <= i < j < |r|
        ensures r[i] < r[j]
      {
        assert r[j] == rest[j - 1];
        assert i > 0 ==> r[i] == rest[i - 1];
      }
    }
  }

  lemma DeliveriesSnoc(cs: seq<Conn>, c: Conn, f: Frame)
    ensures Deliveries(cs + [c], f) == Deliveries(cs, f) + [Delivery(c, f)]
  {
  }

  /** One delivery of `f` to each of `cs`, in that order. */
  function Deliveries(cs: seq<Conn>, f: Frame): (r: seq<Delivery>)
    ensures |r| == |cs|
    ensures forall i :: 0 <= i < |r| ==> r[i] == Delivery(cs[i], f)
  {
    seq(|cs|, i requires 0 <= i < |cs| => Delivery(cs[i], f))
  }

  /** The transport calls of one `send(f)` on table `m`. */
  ghost function Broadcast(m: ReadyMap, f: Frame): (r: seq<Delivery>)
    ensures forall i :: 0 <= i < |r| ==> r[i].to in m && m[r[i].to] && r[i].frame == f
    ensures forall i, j :: 0 <= i < j < |r| ==> r[i].to < r[j].to
    ensures |r| == |ReadySet(m)|
  {
    AscendingMembers(ReadySet(m));
    AscendingLength(ReadySet(m));
    AscendingSorted(ReadySet(m));
    Deliveries(Ascending(ReadySet(m)), f)
  }

  /** The frames one connection received, in the order they were sent. */
  function Received(log: seq<Delivery>, c: Conn): (r: seq<Frame>)
    ensures |r| <= |log|
  {
    if log == [] then []
    else (if log[0].to == c then [log[0].frame] else []) + Received(log[1..], c)
  }

  lemma {:induction false} ReceivedAppend(a: seq<Delivery>, b: seq<Delivery>, c: Conn)
    ensures Received(a + b, c) == Received(a, c) + Received(b, c)
  {
    if a != [] {
      assert (a + b)[1..] == a[1..] + b;
      ReceivedAppend(a[1..], b, c);
    } else {
      assert a + b == b;
    }
  }

  /** A batch that names each connection at most once gives each
      connection exactly the frames addressed to it: one, or none. */
  lemma {:induction false} ReceivedFromDistinct(cs: seq<Conn>, f: Frame, c: Conn)
    requires forall i, j :: 0 <= i < j < |cs| ==> cs[i] != cs[j]
    ensures Received(Deliveries(cs, f), c) == if c in cs then [f] else []
  {
    var ds := Deliveries(cs, f);
    if cs != [] {
      assert ds[1..] == Deliveries(cs[1..], f);
      ReceivedFromDistinct(cs[1..], f, c);
      if cs[0] == c {
        assert c !in cs[1..] by {
          forall i | 0 <= i < |cs[1..]| ensures cs[1..][i] != c {
            assert cs[1..][i] == cs[i + 1];
          }
        }
      } else {
        assert c in cs <==> c in cs[1..] by {
          if c in cs {
            var k :| 0 <= k < |cs| && cs[k] == c;
            assert cs[1..][k - 1] == c;
          }
        }
      }
    }
  }

  /** `send`: every connection that was ready gets the frame exactly once,
      every other connection (and every unknown one) gets nothing. */
  lemma BroadcastReachesReadyOnce(m: ReadyMap, f: Frame, c: Conn)
    ensures Received(Broadcast(m, f), c) == if c in m && m[c] then [f] else []
  {
    AscendingMembers(ReadySet(m));
    AscendingSorted(ReadySet(m));
    ReceivedFromDistinct(Ascending(ReadySet(m)), f, c);
  }

  /** A key larger than every key of a non-empty set does not change its
      smallest key. */
  lemma MinOfLarger(s: set<Conn>, c: Conn)
    requires s != {}
    requires forall d :: d in s ==> d < c
    ensures Min(s + {c}) == Min(s)
  {
    var m := Min(s);
    assert m in s + {c};
  }

  /** Adding a connection larger than all others appends it to the order. */
  lemma {:induction false} AscendingSnoc(s: set<Conn>, c: Conn)
    requires forall d :: d in s ==> d < c
    ensures Ascending(s + {c}) == Ascending(s) + [c]
    decreases |s|
  {
    var t := s + {c};
    if s == {} {
      assert t == {c};
      assert Ascending(t) == [c] + Ascending({}) by {
        assert Min(t) == c;
        assert t - {c} == {};
      }
    } else {
      var m := Min(s);
      var rest := Ascending(s - {m});
      var u := Ascending((s - {m}) + {c});
      assert Ascending(t) == [m] + u by {
        MinOfLarger(s, c);
        assert t - {m} == (s - {m}) + {c};
      }
      assert u == rest + [c] by {
        AscendingSnoc(s - {m}, c);
      }
      assert Ascending(s) == [m] + rest;
      assert [m] + (rest + [c]) == ([m] + rest) + [c];
    }
  }

  /** Visiting the smallest pending key `c` of the table extends the order
      of the ready keys visited so far by `c` exactly when `c` is ready. */
  lemma VisitNext(m: ReadyMap, pending: set<Conn>, c: Conn)
    requires c in pending && pending <= m.Keys
    requires forall d :: d in m ==> (d in pending <==> c <= d)
    ensures Ascending(ReadySet(m) - (pending - {c}))
         == Ascending(ReadySet(m) - pending) + if m[c] then [c] else []
  {
    var done := ReadySet(m) - pending;
    if m[c] {
      AscendingSnoc(done, c);
      assert ReadySet(m) - (pending - {c}) == done + {c};
    } else {
      assert ReadySet(m) - (pending - {c}) == done;
    }
  }
}
