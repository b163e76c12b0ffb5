/** Regrouping the log lines of one capture into connections, and the observations in their final order. */
module Normalize {
  import opened Domain
  import opened ZeekRecord
  import opened ZeekConnection
  import opened Orders

  const MAX_CONNECTIONS: nat := 100_000

  // ---------- the tables a line contributes to ----------

  predicate InConnection(r: Record) { !r.source.log.X509Log? && !r.source.log.FilesLog? }

  function CertificateKey(r: Record): Result<string> {
    var fingerprint :- GetText(r, "fingerprint");
    var id :- GetText(r, "id");
    var key := Or(fingerprint, id);
    if key.None? then Bad(r, "fingerprint or id") else Ok(key.value)
  }

  /** File id and hash, when a line of the files log has both. */
  function FileHash(r: Record): Result<Option<(string, string)>> {
    var id :- GetText(r, "fuid");
    var hash :- GetText(r, "sha256");
    Ok(if id.Some? && hash.Some? then Some((id.value, hash.value)) else None)
  }

  const IDENTITY: seq<string> := ["certificate.subject", "certificate.issuer",
                                  "certificate.not_valid_before", "certificate.not_valid_after"]

  function Field(r: Record, key: string): Option<Value> { if key in r.value then Some(r.value[key]) else None }

  predicate SameIdentity(a: Record, b: Record) {
    forall i | 0 <= i < |IDENTITY| :: Field(a, IDENTITY[i]) == Field(b, IDENTITY[i])
  }

  predicate Readable(r: Record) {
    match r.source.log
    case X509Log => CertificateKey(r).Ok?
    case FilesLog => FileHash(r).Ok?
    case _ => Required(r, "uid").Ok?
  }

  predicate HasUid(r: Record, uid: string) { InConnection(r) && Required(r, "uid") == Ok(uid) }

  predicate HasKey(r: Record, key: string) { r.source.log.X509Log? && CertificateKey(r) == Ok(key) }

  // ---------- the specification ----------

  function Uids(lines: seq<Record>): set<string> {
    set r | r in lines && InConnection(r) && Required(r, "uid").Ok? :: Required(r, "uid").value
  }

  function Group(lines: seq<Record>, uid: string): seq<Record> {
    if lines == [] then []
    else Group(lines[..|lines| - 1], uid) + if HasUid(lines[|lines| - 1], uid) then [lines[|lines| - 1]] else []
  }

  /** The certificate table: the last line of each key. */
  function Certificates(lines: seq<Record>): map<string, Record> {
    if lines == [] then map[]
    else
      var r, rest := lines[|lines| - 1], Certificates(lines[..|lines| - 1]);
      if r.source.log.X509Log? && CertificateKey(r).Ok? then rest[CertificateKey(r).value := r] else rest
  }

  function Hashes(lines: seq<Record>): map<string, string> {
    if lines == [] then map[]
    else
      var r, rest := lines[|lines| - 1], Hashes(lines[..|lines| - 1]);
      if r.source.log.FilesLog? && FileHash(r).Ok? && FileHash(r).value.Some?
      then rest[FileHash(r).value.value.0 := FileHash(r).value.value.1] else rest
  }

  function Seen(run: Import, lines: seq<Record>, uid: string): Result<Option<Observation>> {
    Connection(run, uid, Group(lines, uid), Certificates(lines), Hashes(lines))
  }

  ghost predicate Conflict(lines: seq<Record>) {
    exists a, b, key :: a in lines && b in lines && HasKey(a, key) && HasKey(b, key) && !SameIdentity(a, b)
  }

  /** Exactly the captures the normaliser accepts. */
  ghost predicate Acceptable(run: Import, lines: seq<Record>) {
    && (forall r | r in lines :: Readable(r))
    && !Conflict(lines)
    && |Uids(lines)| <= MAX_CONNECTIONS
    && forall uid | uid in Uids(lines) :: Seen(run, lines, uid).Ok?
  }

  ghost predicate Yields(run: Import, lines: seq<Record>, o: Observation) {
    o.uid in Uids(lines) && Seen(run, lines, o.uid) == Ok(Some(o))
  }

  predicate KeyBefore(a: Observation, b: Observation) { a.at < b.at || (a.at == b.at && a.id < b.id) }

  /** Time, then identity; connections that share both come in the order of their uids. */
  predicate Before(a: Observation, b: Observation) {
    KeyBefore(a, b) || (a.at == b.at && a.id == b.id && Lex(a.uid, b.uid))
  }

  ghost predicate Ordered(os: seq<Observation>) {
    forall i, j | 0 <= i < j < |os| :: Before(os[i], os[j])
  }

  ghost predicate IsNormalized(run: Import, lines: seq<Record>, out: seq<Observation>) {
    Ordered(out) && forall o :: o in out <==> Yields(run, lines, o)
  }

  // ---------- what the tables hold ----------

  /** A certificate line goes by its fingerprint, and by its id when it has none. */
  ghost predicate Keyed(r: Record, key: string) {
    && r.source.log.X509Log? && GetText(r, "id").Ok?
    && (GetText(r, "fingerprint") == Ok(Some(key))
        || (GetText(r, "fingerprint") == Ok(None) && GetText(r, "id") == Ok(Some(key))))
  }

  /** A files line that says which file has which hash. */
  ghost predicate Hashed(r: Record, id: string, hash: string) {
    r.source.log.FilesLog? && GetText(r, "fuid") == Ok(Some(id)) && GetText(r, "sha256") == Ok(Some(hash))
  }

  lemma KeyedExactly(r: Record, key: string)
    ensures HasKey(r, key) <==> Keyed(r, key)
  {
    hide GetText;
  }

  /** Two lines describe one certificate when subject, issuer and both ends of its time are the same, or missing. */
  lemma SameIdentityExactly(a: Record, b: Record)
    ensures SameIdentity(a, b) <==>
      forall field | field in {"certificate.subject", "certificate.issuer", "certificate.not_valid_before",
                               "certificate.not_valid_after"} ::
        (field in a.value <==> field in b.value) && (field in a.value ==> a.value[field] == b.value[field])
  {
    if SameIdentity(a, b) {
      assert Field(a, IDENTITY[0]) == Field(b, IDENTITY[0]) && Field(a, IDENTITY[1]) == Field(b, IDENTITY[1]);
      assert Field(a, IDENTITY[2]) == Field(b, IDENTITY[2]) && Field(a, IDENTITY[3]) == Field(b, IDENTITY[3]);
    } else {
      var i :| 0 <= i < |IDENTITY| && Field(a, IDENTITY[i]) != Field(b, IDENTITY[i]);
      assert IDENTITY[i] in {"certificate.subject", "certificate.issuer", "certificate.not_valid_before",
                             "certificate.not_valid_after"};
    }
  }

  ghost predicate LastKeyed(lines: seq<Record>, key: string, i: nat) {
    i < |lines| && Keyed(lines[i], key) && forall j | i < j < |lines| :: !Keyed(lines[j], key)
  }

  ghost predicate LastHashed(lines: seq<Record>, id: string, hash: string, i: nat) {
    i < |lines| && Hashed(lines[i], id, hash) && forall j, h | i < j < |lines| :: !Hashed(lines[j], id, h)
  }

  /** The certificate of a key is the last line of that key. */
  lemma {:induction false} CertificatesExactly(lines: seq<Record>, key: string)
    ensures key in Certificates(lines) <==> exists i: nat :: LastKeyed(lines, key, i)
    ensures forall i: nat | LastKeyed(lines, key, i) ::
      key in Certificates(lines) && Certificates(lines)[key] == lines[i]
  {
    if lines != [] {
      var front, r := lines[..|lines| - 1], lines[|lines| - 1];
      CertificatesExactly(front, key);
      KeyedExactly(r, key);
      hide Keyed, GetText;
      if Keyed(r, key) {
        assert LastKeyed(lines, key, |front|);
      } else {
        forall i: nat ensures LastKeyed(lines, key, i) <==> LastKeyed(front, key, i) {
          assert forall j | 0 <= j < |front| :: lines[j] == front[j];
        }
      }
    }
  }

  /** The hash of a file is the one on the last line that gives it one. */
  lemma {:induction false} HashesExactly(lines: seq<Record>, id: string)
    requires forall r | r in lines && r.source.log.FilesLog? :: FileHash(r).Ok?
    ensures id in Hashes(lines) <==> exists i: nat, hash :: LastHashed(lines, id, hash, i)
    ensures forall i: nat, hash | LastHashed(lines, id, hash, i) :: id in Hashes(lines) && Hashes(lines)[id] == hash
  {
    if lines != [] {
      var front, r := lines[..|lines| - 1], lines[|lines| - 1];
      assert lines == front + [r];
      HashesExactly(front, id);
      HashIsRead(r);
      hide Hashed, FileHash;
      if h :| Hashed(r, id, h) {
        assert LastHashed(lines, id, h, |front|);
      } else {
        forall i: nat, h ensures LastHashed(lines, id, h, i) <==> LastHashed(front, id, h, i) {
          assert forall j | 0 <= j < |front| :: lines[j] == front[j];
        }
      }
    }
  }

  lemma HashIsRead(r: Record)
    requires r.source.log.FilesLog? ==> FileHash(r).Ok?
    ensures forall id, hash :: Hashed(r, id, hash) <==> r.source.log.FilesLog? && FileHash(r).value == Some((id, hash))
  {
    hide GetText;
  }

  // ---------- the order is total ----------

  lemma BeforeTransitive(a: Observation, b: Observation, c: Observation)
    requires Before(a, b) && Before(b, c)
    ensures Before(a, c)
  {
    if Lex(a.uid, b.uid) && Lex(b.uid, c.uid) { LexTransitive(a.uid, b.uid, c.uid); }
  }

  lemma BeforeIrreflexive(a: Observation, b: Observation)
    ensures !(Before(a, b) && Before(b, a))
  {
    LexIrreflexive(a.uid, b.uid);
  }

  /** A set of observations has one ordered listing: a normalised capture has one result. */
  lemma {:induction false} OrderedIsUnique(xs: seq<Observation>, ys: seq<Observation>)
    requires Ordered(xs) && Ordered(ys) && forall o :: o in xs <==> o in ys
    ensures xs == ys
    decreases |xs|
  {
    assert |xs| > 0 ==> xs[0] in ys;
    assert |ys| > 0 ==> ys[0] in xs;
    if |xs| > 0 {
      var x, y := xs[0], ys[0];
      var j :| 0 <= j < |ys| && ys[j] == x;
      var i :| 0 <= i < |xs| && xs[i] == y;
      BeforeIrreflexive(x, y);
      assert i == 0 && j == 0;
      forall o ensures o in xs[1..] <==> o in ys[1..] {
        TailMember(xs, o);
        TailMember(ys, o);
      }
      OrderedIsUnique(xs[1..], ys[1..]);
      assert xs == [x] + xs[1..] && ys == [y] + ys[1..];
    }
  }

  lemma TailMember(xs: seq<Observation>, o: Observation)
    requires Ordered(xs) && xs != []
    ensures o in xs[1..] <==> o in xs && o != xs[0]
  {
    BeforeIrreflexive(xs[0], xs[0]);
    if o in xs && o != xs[0] {
      var i :| 0 <= i < |xs| && xs[i] == o;
      assert xs[1..][i - 1] == o;
    }
  }

  // ---------- the sort ----------

  lemma FirstInFront(o: Observation, rest: seq<Observation>)
    requires Ordered(rest) && forall x | x in rest :: Before(o, x)
    ensures Ordered([o] + rest)
  {}

  lemma LaterThanFirst(o: Observation, xs: seq<Observation>)
    requires Ordered(xs) && xs != [] && Before(o, xs[0])
    ensures forall x | x in xs :: Before(o, x)
  {
    forall x | x in xs ensures Before(o, x) {
      if x != xs[0] { BeforeTransitive(o, xs[0], x); }
    }
  }

  /** `sort_by_key` on time and identity: stable, so equal keys keep the order they came in. */
  function StableSort(os: seq<Observation>): seq<Observation> {
    if os == [] then [] else InsertFirst(os[0], StableSort(os[1..]))
  }

  function InsertFirst(o: Observation, sorted: seq<Observation>): seq<Observation> {
    if sorted == [] || !KeyBefore(sorted[0], o) then [o] + sorted else [sorted[0]] + InsertFirst(o, sorted[1..])
  }

  lemma {:induction false} InsertFirstOrders(o: Observation, sorted: seq<Observation>)
    requires Ordered(sorted) && forall x | x in sorted :: Lex(o.uid, x.uid)
    ensures Ordered(InsertFirst(o, sorted))
    ensures forall x :: x in InsertFirst(o, sorted) <==> x == o || x in sorted
  {
    if sorted == [] {
    } else if !KeyBefore(sorted[0], o) {
      assert Before(o, sorted[0]);
      LaterThanFirst(o, sorted);
      FirstInFront(o, sorted);
    } else {
      assert Before(sorted[0], o);
      hide Before, KeyBefore, Lex;
      InsertFirstOrders(o, sorted[1..]);
      assert forall x | x in sorted[1..] :: Before(sorted[0], x);
      assert sorted == [sorted[0]] + sorted[1..];
      FirstInFront(sorted[0], InsertFirst(o, sorted[1..]));
    }
  }

  ghost predicate UidsAscend(os: seq<Observation>) {
    forall i, j | 0 <= i < j < |os| :: Lex(os[i].uid, os[j].uid)
  }

  lemma {:induction false} StableSortOrders(os: seq<Observation>)
    requires UidsAscend(os)
    ensures Ordered(StableSort(os)) && forall x :: x in StableSort(os) <==> x in os
  {
    if os != [] {
      StableSortOrders(os[1..]);
      forall x | x in StableSort(os[1..]) ensures Lex(os[0].uid, x.uid) {
        var i :| 0 <= i < |os[1..]| && os[1..][i] == x;
        assert os[i + 1] == x;
      }
      InsertFirstOrders(os[0], StableSort(os[1..]));
      assert os == [os[0]] + os[1..];
    }
  }

  // ---------- the grouping loop ----------

  lemma {:induction false} CertificatesMembers(lines: seq<Record>)
    ensures forall key | key in Certificates(lines) ::
      Certificates(lines)[key] in lines && HasKey(Certificates(lines)[key], key)
    ensures forall r, key | r in lines && HasKey(r, key) :: key in Certificates(lines)
  {
    if lines != [] {
      CertificatesMembers(lines[..|lines| - 1]);
      assert lines == lines[..|lines| - 1] + [lines[|lines| - 1]];
    }
  }

  lemma SameIdentityTransitive(a: Record, b: Record, c: Record)
    requires SameIdentity(a, b) && SameIdentity(b, c)
    ensures SameIdentity(a, c) && SameIdentity(c, a)
  {}

  lemma ConflictGrows(lines: seq<Record>, r: Record, key: string)
    requires !Conflict(lines) && HasKey(r, key)
    ensures Conflict(lines + [r]) <==> key in Certificates(lines) && !SameIdentity(Certificates(lines)[key], r)
  {
    CertificatesMembers(lines);
    var more := lines + [r];
    if key in Certificates(lines) && !SameIdentity(Certificates(lines)[key], r) {
      assert Certificates(lines)[key] in more && r in more;
    } else {
      forall x | x in more && HasKey(x, key) ensures SameIdentity(x, r) && SameIdentity(r, x) {
        if x in lines {
          assert SameIdentity(x, Certificates(lines)[key]) && SameIdentity(Certificates(lines)[key], r);
          SameIdentityTransitive(x, Certificates(lines)[key], r);
        }
      }
      forall a, b, k | a in more && b in more && HasKey(a, k) && HasKey(b, k) ensures SameIdentity(a, b) {
        if k == key { SameIdentityTransitive(a, r, b); }
      }
    }
  }

  /** What the three tables hold after some lines have been read without an error. */
  ghost predicate Tables(lines: seq<Record>, connections: map<string, seq<Record>>, certificates: map<string, Record>,
                         hashes: map<string, string>)
  {
    && (forall r | r in lines :: Readable(r)) && !Conflict(lines)
    && connections.Keys == Uids(lines) && (forall uid | uid in connections :: connections[uid] == Group(lines, uid))
    && certificates == Certificates(lines) && hashes == Hashes(lines)
  }

  lemma NoGroup(lines: seq<Record>, uid: string)
    requires uid !in Uids(lines)
    ensures Group(lines, uid) == []
  {}

  lemma UidsGrow(lines: seq<Record>, r: Record, uid: string)
    requires HasUid(r, uid)
    ensures Uids(lines + [r]) == Uids(lines) + {uid}
  {}

  lemma ReadOne(lines: seq<Record>, r: Record, connections: map<string, seq<Record>>, certificates: map<string, Record>,
                hashes: map<string, string>, uid: string)
    requires Tables(lines, connections, certificates, hashes) && HasUid(r, uid)
    ensures var group := if uid in connections then connections[uid] else [];
      Tables(lines + [r], connections[uid := group + [r]], certificates, hashes)
  {
    hide Uids, Group, Certificates, Hashes, Conflict, HasUid, Readable;
    var more := lines + [r];
    UidIsReadable(r, uid);
    UidsGrow(lines, r, uid);
    if uid !in connections { NoGroup(lines, uid); }
    ConnectionLineTables(lines, r, uid);
    assert forall x | x in more :: x in lines || x == r;
    var group := if uid in connections then connections[uid] else [];
    assert group == Group(lines, uid);
    assert connections[uid := group + [r]].Keys == Uids(more);
  }

  lemma UidIsReadable(r: Record, uid: string)
    requires HasUid(r, uid)
    ensures Readable(r)
  {}

  lemma ConnectionLineTables(lines: seq<Record>, r: Record, uid: string)
    requires HasUid(r, uid)
    ensures var more := lines + [r];
      && (forall u :: Group(more, u) == if u == uid then Group(lines, u) + [r] else Group(lines, u))
      && Certificates(more) == Certificates(lines) && Hashes(more) == Hashes(lines)
      && (Conflict(more) ==> Conflict(lines))
  {}

  lemma ReadCertificate(lines: seq<Record>, r: Record, connections: map<string, seq<Record>>,
                        certificates: map<string, Record>, hashes: map<string, string>, key: string)
    requires Tables(lines, connections, certificates, hashes) && HasKey(r, key)
    requires key in certificates ==> SameIdentity(certificates[key], r)
    ensures Tables(lines + [r], connections, certificates[key := r], hashes)
  {
    ConflictGrows(lines, r, key);
    var more := lines + [r];
    assert more[..|lines|] == lines && forall x :: x in more <==> x in lines || x == r;
    assert Uids(more) == Uids(lines);
  }

  lemma ReadHash(lines: seq<Record>, r: Record, connections: map<string, seq<Record>>,
                 certificates: map<string, Record>,
                 hashes: map<string, string>)
    requires Tables(lines, connections, certificates, hashes) && r.source.log.FilesLog? && FileHash(r).Ok?
    ensures var pair := FileHash(r).value;
      Tables(lines + [r], connections, certificates,
             if pair.Some? then hashes[pair.value.0 := pair.value.1] else hashes)
  {}

  lemma NoTables()
    ensures Tables([], map[], map[], map[])
  {}

  /** Reads every line into the connection, certificate and hash tables. */
  method Regroup(lines: seq<Record>)
      returns (ok: bool, connections: map<string, seq<Record>>, certificates: map<string, Record>,
               hashes: map<string, string>)
    ensures ok <==> (forall r | r in lines :: Readable(r)) && !Conflict(lines)
    ensures ok ==> Tables(lines, connections, certificates, hashes)
  {
    hide SameIdentity, Uids, Group, Certificates, Hashes, Conflict;
    connections, certificates, hashes := map[], map[], map[];
    NoTables();
    for i := 0 to |lines|
      invariant Tables(lines[..i], connections, certificates, hashes)
    {
      var r := lines[i];
      assert lines[..i + 1] == lines[..i] + [r];
      match r.source.log {
        case X509Log =>
          var key := CertificateKey(r);
          if key.Err? {
            assert !Readable(r);
            return false, connections, certificates, hashes;
          }
          if key.value in certificates && !SameIdentity(certificates[key.value], r) {
            ConflictGrows(lines[..i], r, key.value);
            ConflictStays(lines, i + 1);
            return false, connections, certificates, hashes;
          }
          ReadCertificate(lines[..i], r, connections, certificates, hashes, key.value);
          certificates := certificates[key.value := r];
        case FilesLog =>
          var pair := FileHash(r);
          if pair.Err? {
            assert !Readable(r);
            return false, connections, certificates, hashes;
          }
          ReadHash(lines[..i], r, connections, certificates, hashes);
          if pair.value.Some? {
            hashes := hashes[pair.value.value.0 := pair.value.value.1];
          }
        case _ =>
          var uid := Required(r, "uid");
          if uid.Err? {
            assert !Readable(r);
            return false, connections, certificates, hashes;
          }
          ReadOne(lines[..i], r, connections, certificates, hashes, uid.value);
          var group := if uid.value in connections then connections[uid.value] else [];
          connections := connections[uid.value := group + [r]];
      }
    }
    assert lines[..|lines|] == lines;
    ok := true;
  }

  lemma ConflictStays(lines: seq<Record>, n: nat)
    requires n <= |lines| && Conflict(lines[..n])
    ensures Conflict(lines)
  {}

  /** What has been observed once the connections of `done` have been visited, in the order of their uids. */
  ghost predicate Visited(run: Import, lines: seq<Record>, done: set<string>, os: seq<Observation>) {
    && UidsAscend(os)
    && (forall o :: o in os <==> o.uid in done && Yields(run, lines, o))
    && forall uid | uid in done :: Seen(run, lines, uid).Ok?
  }

  lemma VisitOne(run: Import, lines: seq<Record>, done: set<string>, os: seq<Observation>, uid: string)
    requires Visited(run, lines, done, os) && uid in Uids(lines) && Seen(run, lines, uid).Ok?
    requires forall u | u in done :: Lex(u, uid)
    ensures var seen := Seen(run, lines, uid).value;
      Visited(run, lines, done + {uid}, if seen.Some? then os + [seen.value] else os)
  {
    ConnectionUid(run, uid, Group(lines, uid), Certificates(lines), Hashes(lines));
    LexIrreflexive(uid, uid);
    hide Uids, Connection, Group, Certificates, Hashes;
    assert forall i | 0 <= i < |os| :: os[i].uid in done;
  }

  lemma LeastUid(uids: set<string>)
    requires uids != {}
    ensures exists least :: IsLeast(uids, Lex, least)
  {
    LexIsOrder();
    LeastExists(uids, Lex);
  }

  /** The connections in the order of their uids. None when one of them cannot be made sense of. */
  method VisitAll(run: Import, ghost lines: seq<Record>, connections: map<string, seq<Record>>,
                  certificates: map<string, Record>, hashes: map<string, string>)
      returns (observations: Option<seq<Observation>>)
    requires Tables(lines, connections, certificates, hashes)
    ensures observations.Some? <==> forall uid | uid in Uids(lines) :: Seen(run, lines, uid).Ok?
    ensures observations.Some? ==> Visited(run, lines, Uids(lines), observations.value)
  {
    hide Uids, Conflict, Readable, Connection, Lex, Group, Certificates, Hashes;
    var os: seq<Observation> := [];
    var rest := connections.Keys;
    ghost var done := {};
    while rest != {}
      invariant rest <= Uids(lines) && done == Uids(lines) - rest
      invariant forall u, v | u in done && v in rest :: Lex(u, v)
      invariant Visited(run, lines, done, os)
      decreases |rest|
    {
      LeastUid(rest);
      var uid :| IsLeast(rest, Lex, uid);
      var seen := Connection(run, uid, connections[uid], certificates, hashes);
      assert seen == Seen(run, lines, uid);
      if seen.Err? { return None; }
      VisitOne(run, lines, done, os, uid);
      if seen.value.Some? {
        os := os + [seen.value.value];
      }
      rest, done := rest - {uid}, done + {uid};
    }
    assert done == Uids(lines);
    observations := Some(os);
  }

  /** The normaliser: either the capture is refused, or its observations come out in their final order. */
  method Run(run: Import, lines: seq<Record>) returns (out: Option<seq<Observation>>)
    ensures out.Some? <==> Acceptable(run, lines)
    ensures out.Some? ==> IsNormalized(run, lines, out.value)
  {
    hide Seen, Uids, Conflict, Readable, Lex, Group, Certificates, Hashes, Connection;
    var ok, connections, certificates, hashes := Regroup(lines);
    if !ok { return None; }
    assert |connections| == |connections.Keys|;
    if |connections| > MAX_CONNECTIONS { return None; }
    var observations := VisitAll(run, lines, connections, certificates, hashes);
    if observations.None? { return None; }
    StableSortOrders(observations.value);
    out := Some(StableSort(observations.value));
  }

  // ---------- normalisation is per connection ----------

  /** The certificate and file lines, unreadable lines, and the lines of the kept connections. */
  function Restrict(lines: seq<Record>, keep: set<string>): seq<Record> {
    if lines == [] then []
    else
      var r := lines[|lines| - 1];
      Restrict(lines[..|lines| - 1], keep)
        + if InConnection(r) && Required(r, "uid").Ok? && Required(r, "uid").value !in keep then [] else [r]
  }

  lemma {:induction false} RestrictMembers(lines: seq<Record>, keep: set<string>, r: Record)
    ensures r in Restrict(lines, keep)
       <==> r in lines && (InConnection(r) && Required(r, "uid").Ok? ==> Required(r, "uid").value in keep)
  {
    if lines != [] {
      RestrictMembers(lines[..|lines| - 1], keep, r);
      hide Required, InConnection;
      assert lines == lines[..|lines| - 1] + [lines[|lines| - 1]];
    }
  }

  lemma {:induction false} RestrictGroup(lines: seq<Record>, keep: set<string>, uid: string)
    requires uid in keep
    ensures Group(Restrict(lines, keep), uid) == Group(lines, uid)
  {
    if lines != [] {
      var front, r := lines[..|lines| - 1], lines[|lines| - 1];
      RestrictGroup(front, keep, uid);
      hide Required;
      var kept := Restrict(front, keep);
      assert (kept + [r])[..|kept|] == kept && kept + [] == kept;
    }
  }

  lemma {:induction false} RestrictTables(lines: seq<Record>, keep: set<string>)
    ensures Certificates(Restrict(lines, keep)) == Certificates(lines)
    ensures Hashes(Restrict(lines, keep)) == Hashes(lines)
  {
    if lines != [] {
      var front, r := lines[..|lines| - 1], lines[|lines| - 1];
      RestrictTables(front, keep);
      hide Required, CertificateKey, FileHash;
      var kept := Restrict(front, keep);
      assert (kept + [r])[..|kept|] == kept && kept + [] == kept;
    }
  }

  /** A capture and its restriction agree on everything but the connections that were dropped. */
  lemma RestrictAgrees(run: Import, lines: seq<Record>, keep: set<string>)
    ensures var part := Restrict(lines, keep);
      && Uids(part) == Uids(lines) * keep
      && (forall uid | uid in keep :: Seen(run, part, uid) == Seen(run, lines, uid))
      && ((forall r | r in part :: Readable(r)) <==> (forall r | r in lines :: Readable(r)))
      && (Conflict(part) <==> Conflict(lines))
  {
    var part := Restrict(lines, keep);
    forall r ensures r in part
      <==> r in lines && (InConnection(r) && Required(r, "uid").Ok? ==> Required(r, "uid").value in keep) {
      RestrictMembers(lines, keep, r);
    }
    RestrictTables(lines, keep);
    forall uid | uid in keep ensures Seen(run, part, uid) == Seen(run, lines, uid) { RestrictGroup(lines, keep, uid); }
    hide Required, Connection, Restrict;
    assert Uids(part) == Uids(lines) * keep;
    assert forall r, key | r in lines && HasKey(r, key) :: r in part;
    assert forall r | r in lines && !Readable(r) :: r in part;
  }

  /** Two ordered lists merged into one. */
  function Merge(xs: seq<Observation>, ys: seq<Observation>): seq<Observation> {
    if xs == [] then ys
    else if ys == [] then xs
    else if Before(xs[0], ys[0]) then [xs[0]] + Merge(xs[1..], ys)
    else [ys[0]] + Merge(xs, ys[1..])
  }

  lemma {:induction false} MergeOrders(xs: seq<Observation>, ys: seq<Observation>)
    requires Ordered(xs) && Ordered(ys)
    requires forall x, y | x in xs && y in ys :: x.uid != y.uid
    ensures Ordered(Merge(xs, ys)) && forall o :: o in Merge(xs, ys) <==> o in xs || o in ys
    decreases |xs| + |ys|
  {
    if xs != [] && ys != [] {
      var x, y := xs[0], ys[0];
      assert Before(x, y) || Before(y, x) by {
        assert x.uid != y.uid;
        LexTotal(x.uid, y.uid);
      }
      assert xs == [x] + xs[1..] && ys == [y] + ys[1..];
      assert forall o | o in xs[1..] :: Before(x, o);
      assert forall o | o in ys[1..] :: Before(y, o);
      hide Before;
      if Before(x, y) {
        LaterThanFirst(x, ys);
        MergeOrders(xs[1..], ys);
        FirstInFront(x, Merge(xs[1..], ys));
      } else {
        LaterThanFirst(y, xs);
        MergeOrders(xs, ys[1..]);
        FirstInFront(y, Merge(xs, ys[1..]));
      }
    }
  }

  /**
    Splitting a capture's connections in two: the whole is accepted exactly when it is not too large and both
    parts are accepted, and its result is the merge of theirs. So the lines of other connections either make
    the run fail or leave a connection's observation as it was.
   */
  lemma PerConnection(run: Import, lines: seq<Record>, keep: set<string>)
    ensures var here, there := Restrict(lines, keep), Restrict(lines, Uids(lines) - keep);
      Acceptable(run, lines)
      <==> Acceptable(run, here) && Acceptable(run, there) && |Uids(lines)| <= 100_000
  {
    var here, there := Restrict(lines, keep), Restrict(lines, Uids(lines) - keep);
    RestrictAgrees(run, lines, keep);
    RestrictAgrees(run, lines, Uids(lines) - keep);
    hide Restrict, Seen, Readable, Conflict, Uids;
    var uids := Uids(lines);
    FewerUids(Uids(here), uids);
    FewerUids(Uids(there), uids);
    assert forall uid | uid in uids :: uid in keep || uid in uids - keep;
  }

  lemma FewerUids(some: set<string>, all: set<string>)
    requires some <= all
    ensures |some| <= |all|
    decreases |all|
  {
    if u :| u in all {
      FewerUids(some - {u}, all - {u});
    }
  }

  lemma ResultsMerge(run: Import, lines: seq<Record>, keep: set<string>,
                     all: seq<Observation>, here: seq<Observation>, there: seq<Observation>)
    requires IsNormalized(run, lines, all)
    requires IsNormalized(run, Restrict(lines, keep), here)
    requires IsNormalized(run, Restrict(lines, Uids(lines) - keep), there)
    ensures all == Merge(here, there)
  {
    RestrictAgrees(run, lines, keep);
    RestrictAgrees(run, lines, Uids(lines) - keep);
    hide Restrict, Seen, Uids, Readable, Conflict;
    assert forall o :: Yields(run, lines, o) <==>
      Yields(run, Restrict(lines, keep), o) || Yields(run, Restrict(lines, Uids(lines) - keep), o);
    MergeOrders(here, there);
    OrderedIsUnique(all, Merge(here, there));
  }

  /** Every observation of a result says what its connection's lines say. */
  lemma ResultIsBacked(run: Import, lines: seq<Record>, out: seq<Observation>, o: Observation)
    requires IsNormalized(run, lines, out) && o in out
    ensures Backed(run, Group(lines, o.uid), Certificates(lines), Hashes(lines), o)
  {
    hide Connection, Backed, Group, Certificates, Hashes, Ordered;
    ObservationIsBacked(run, o.uid, Group(lines, o.uid), Certificates(lines), Hashes(lines), o);
  }

  /** At most one observation per uid. */
  lemma OnePerUid(run: Import, lines: seq<Record>, out: seq<Observation>, i: nat, j: nat)
    requires IsNormalized(run, lines, out) && i < j < |out|
    ensures out[i].uid != out[j].uid
  {
    assert out[i] in out && out[j] in out;
    hide Seen;
    BeforeIrreflexive(out[i], out[j]);
  }
}
