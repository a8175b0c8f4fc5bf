/** The realtime collaboration endpoint `project_ws`: a WebSocket handshake
    that authenticates through the first offered sub-protocol, an access-grant
    upsert, and a process-wide registry of rooms (project id to the list of
    connections joined to it) that relays every received text to the other
    members of the room.  Operations run one at a time. */
module Collaboration {
  import opened Wrappers
  import opened PyText

  /** A UUID in canonical form: its 32 hex digits, lower-case. */
  datatype Uuid = Uuid(hex: string)

  type UserId = Uuid
  type ProjectId = Uuid

  /** The identity of one WebSocket object; the relay compares with `is`. */
  type ConnId = nat

  type Grant = (UserId, ProjectId)

  /** A decoded token payload (a JWT claim set). */
  type Claims = map<string, string>

  /** Close code for a policy violation (section 7.4.1 of RFC 6455). */
  const PolicyViolation: int := 1008

  /** The form `UUID.hex` prints: 32 lower-case hex digits. */
  predicate Canonical(u: Uuid) {
    |u.hex| == 32 && forall i :: 0 <= i < |u.hex| ==> IsLowerHexDigit(u.hex[i])
  }

  /** Hex digits with single underscores between them, as `int` reads a
      literal: no leading, trailing or doubled underscore. */
  predicate Grouped(w: string) {
    && |w| > 0 && IsHexDigit(w[0]) && IsHexDigit(w[|w| - 1])
    && (forall i :: 0 <= i < |w| ==> IsHexDigit(w[i]) || w[i] == '_')
    && (forall i :: 0 <= i < |w| - 1 && w[i] == '_' ==> w[i + 1] != '_')
  }

  function DropUnderscores(w: string): (r: string)
    ensures |r| <= |w|
    ensures forall c :: c in r ==> c in w && c != '_'
  {
    if w == [] then []
    else (if w[0] == '_' then [] else [w[0]]) + DropUnderscores(w[1..])
  }

  /** `int(h, 16)` for ASCII text: surrounding white space, an optional
      sign, an optional `0x` prefix that an underscore may follow, then
      grouped hex digits.  The result is whether the sign was `-` and the
      digits without underscores. */
  function HexInt(h: string): Option<(bool, string)> {
    var t := Strip(h);
    var negative := |t| > 0 && t[0] == '-';
    var u := if |t| > 0 && (t[0] == '+' || t[0] == '-') then t[1..] else t;
    var prefixed := |u| >= 2 && u[0] == '0' && (u[1] == 'x' || u[1] == 'X');
    var v := if prefixed then u[2..] else u;
    var w := if prefixed && |v| > 0 && v[0] == '_' then v[1..] else v;
    if Grouped(w) then Some((negative, DropUnderscores(w))) else None
  }

  /** Left-pads hex digits with zeros to 32 places, as `'%032x'` does. */
  function Pad32(ds: string): (r: string)
    ensures |ds| <= 32 ==> |r| == 32 && r[32 - |ds|..] == ds
    ensures forall c :: c in r ==> c in ds || c == '0'
    decreases 32 - |ds|
  {
    if |ds| >= 32 then ds else Pad32("0" + ds)
  }

  /** What `int` reads is no longer than its text and holds only hex
      digits. */
  lemma HexIntBound(h: string)
    requires HexInt(h).Some?
    ensures |HexInt(h).value.1| <= |h|
    ensures forall c :: c in HexInt(h).value.1 ==> IsHexDigit(c)
  {
    StripIsSlice(h);
  }

  /** The UUID whose value has the hex digits `ds`. */
  function CanonicalOf(ds: string): (u: Uuid)
    requires |ds| <= 32 && forall c :: c in ds ==> IsHexDigit(c)
    ensures Canonical(u)
    ensures |Pad32(ds)| == 32
  {
    PadKeepsHex(ds);
    Uuid(Lower(Pad32(ds)))
  }

  lemma PadKeepsHex(ds: string)
    requires forall c :: c in ds ==> IsHexDigit(c)
    ensures forall i :: 0 <= i < |Lower(Pad32(ds))| ==> IsLowerHexDigit(Lower(Pad32(ds))[i])
  {
    var p := Pad32(ds);
    forall i | 0 <= i < |p|
      ensures IsLowerHexDigit(LowerChar(p[i]))
    {
      assert p[i] in p;
    }
  }

  /** `int(·, 16)` refuses a text holding a character that is neither
      white space, a sign, a prefix letter, an underscore nor a hex digit. */
  lemma HexIntRefuses(h: string, c: char)
    requires c in h && !IsSpace(c) && !IsHexDigit(c) && c !in {'_', '+', '-', 'x', 'X'}
    ensures HexInt(h) == None
  {
    StripKeepsChar(h, c);
    var t := Strip(h);
    var u := if |t| > 0 && (t[0] == '+' || t[0] == '-') then t[1..] else t;
    var k :| 0 <= k < |t| && t[k] == c;
    assert c in u by {
      if u != t { assert u[k - 1] == c; }
    }
    var prefixed := |u| >= 2 && u[0] == '0' && (u[1] == 'x' || u[1] == 'X');
    var v := if prefixed then u[2..] else u;
    var m :| 0 <= m < |u| && u[m] == c;
    assert c in v by {
      if prefixed { assert v[m - 2] == c; }
    }
    var w := if prefixed && |v| > 0 && v[0] == '_' then v[1..] else v;
    var n :| 0 <= n < |v| && v[n] == c;
    var j := if w == v then n else n - 1;
    assert w[j] == c;
  }

  /** The clean-up before the length check: `urn:` and `uuid:` dropped,
      braces stripped, hyphens dropped. */
  function Cleaned(s: string): string {
    var t := ReplaceAll(ReplaceAll(s, "urn:", ""), "uuid:", "");
    ReplaceAll(StripOf(t, {'{', '}'}), "-", "")
  }

  /** `uuid.UUID(s)`: drops `urn:` and `uuid:`, strips braces, drops
      hyphens, requires 32 characters, reads them with `int(·, 16)` and
      refuses a negative value; the UUID is kept in canonical form. */
  function ParseUuid(s: string): (r: Option<Uuid>)
    ensures r.Some? ==> Canonical(r.value)
  {
    var h := Cleaned(s);
    if |h| != 32 then None
    else match HexInt(h)
      case None => None
      case Some((negative, ds)) =>
        if negative && exists i :: 0 <= i < |ds| && ds[i] != '0' then None
        else HexIntBound(h); Some(CanonicalOf(ds))
  }

  /** How the subject claim of a verified token becomes a user id. */
  datatype Resolution = Resolved(user: UserId) | Unknown | Fails(error: PyError)

  /** The code as written: `UUID(payload["sub"])`. */
  function UuidSubject(sub: string): (r: Resolution)
    ensures r.Resolved? || r == Fails(ValueError)
    ensures r.Resolved? <==> ParseUuid(sub).Some?
    ensures r.Resolved? ==> Canonical(r.user)
  {
    match ParseUuid(sub)
    case Some(u) => Resolved(u)
    case None => Fails(ValueError)
  }

  /** The evidently intended resolution: the subject is the user's e-mail,
      looked up in the user directory; an unknown e-mail is refused. */
  function DirectorySubject(directory: map<string, UserId>, sub: string): (r: Resolution)
    ensures r.Resolved? <==> sub in directory
    ensures r.Resolved? ==> r.user == directory[sub]
    ensures !r.Fails?
  {
    if sub in directory then Resolved(directory[sub]) else Unknown
  }

  /** `proto_hdr.split(",")[0].strip()`, the header defaulting to `""`. */
  function Candidate(header: Option<string>): string {
    Strip(Before(header.GetOr(""), ","))
  }

  datatype Outcome =
    | Closed(code: int)
    | Raised(error: PyError)
    | Accepted(subprotocol: string, user: UserId)

  /** The ids that have a row in the user table and in the project table;
      both columns of the access table are foreign keys into them. */
  datatype Rows = Rows(users: set<UserId>, projects: set<ProjectId>)

  /** The access upsert: look the pair up and insert it when missing.  An
      insert naming a user or a project without a row violates a foreign
      key; the `IntegrityError` is rolled back and swallowed, so nothing is
      stored. */
  function RecordGrant(grants: set<Grant>, rows: Rows, user: UserId, project: ProjectId): (r: set<Grant>)
    ensures (user, project) in r <==> (user, project) in grants || (user in rows.users && project in rows.projects)
    ensures forall g :: g != (user, project) ==> (g in r <==> g in grants)
  {
    if (user, project) in grants then grants
    else if user in rows.users && project in rows.projects then grants + {(user, project)}
    else grants
  }

  /** Everything `project_ws` does before it joins a room: the verdict on
      the connection and the grant set afterwards. */
  function Handshake(header: Option<string>, decode: string -> Option<Claims>,
                     resolve: string -> Resolution, project: ProjectId,
                     rows: Rows, grants: set<Grant>): (r: (Outcome, set<Grant>))
    ensures r.0.Closed? ==> r.0.code == PolicyViolation
    ensures r.0.Accepted? ==> r.0.subprotocol == Candidate(header) && r.1 == RecordGrant(grants, rows, r.0.user, project)
    ensures !r.0.Accepted? ==> r.1 == grants
  {
    var proto := Candidate(header);
    if !StartsWith(proto, "jwt.") then (Closed(PolicyViolation), grants)
    else match decode(proto[4..])
      case None => (Closed(PolicyViolation), grants)
      case Some(payload) =>
        if "sub" !in payload then (Raised(KeyError), grants)
        else match resolve(payload["sub"])
          case Resolved(user) => (Accepted(proto, user), RecordGrant(grants, rows, user, project))
          case Unknown => (Closed(PolicyViolation), grants)
          case Fails(e) => (Raised(e), grants)
  }

  // ---------------------------------------------------------------------
  // The room registry as values: the specification of the class below.

  type Rooms = map<ProjectId, seq<ConnId>>

  /** No project is kept with an empty member list. */
  ghost predicate NoEmptyRooms(rooms: Rooms) {
    forall p :: p in rooms ==> rooms[p] != []
  }

  function Members(rooms: Rooms, p: ProjectId): seq<ConnId> {
    if p in rooms then rooms[p] else []
  }

  /** `_rooms.setdefault(p, []).append(c)` */
  function AfterJoin(rooms: Rooms, p: ProjectId, c: ConnId): Rooms {
    rooms[p := Members(rooms, p) + [c]]
  }

  /** `list.remove(c)`: drops the first occurrence. */
  function RemoveFirst(s: seq<ConnId>, c: ConnId): seq<ConnId> {
    if s == [] then []
    else if s[0] == c then s[1..]
    else [s[0]] + RemoveFirst(s[1..], c)
  }

  /** `_rooms[p].remove(c)` followed by `_rooms.pop(p)` when the list emptied. */
  function AfterLeave(rooms: Rooms, p: ProjectId, c: ConnId): Rooms
    requires p in rooms && c in rooms[p]
  {
    var rest := RemoveFirst(rooms[p], c);
    if rest == [] then rooms - {p} else rooms[p := rest]
  }

  datatype Delivery = Delivery(to: ConnId, text: string)

  /** How the receive loop ends: the client disconnects, which raises
      `WebSocketDisconnect`, or it sends a frame without text, on which
      `receive_text` raises `KeyError`. */
  datatype SessionEnd = ClientDisconnect | NonTextFrame

  /** The sends of one relay pass: `for peer in members: if peer is not
      sender: peer.send_text(text)`. */
  function Deliveries(members: seq<ConnId>, sender: ConnId, text: string): seq<Delivery> {
    if members == [] then []
    else
      var last := members[|members| - 1];
      Deliveries(members[..|members| - 1], sender, text)
      + (if last != sender then [Delivery(last, text)] else [])
  }

  function Recipients(ds: seq<Delivery>): seq<ConnId> {
    seq(|ds|, i requires 0 <= i < |ds| => ds[i].to)
  }

  /** The sends of a whole session: one relay pass per received text. */
  function Relay(members: seq<ConnId>, sender: ConnId, inbound: seq<string>): seq<Delivery> {
    if inbound == [] then []
    else Relay(members, sender, inbound[..|inbound| - 1]) + Deliveries(members, sender, inbound[|inbound| - 1])
  }

  // ---------------------------------------------------------------------
  // Properties of the handshake.

  /** A connection left behind by a non-text frame stays a member: every
      later relay pass by another member still sends to it. */
  lemma StaleConnectionReceives(rooms: Rooms, p: ProjectId, c: ConnId, sender: ConnId, text: string)
    requires sender != c
    ensures Deliveries(Members(AfterJoin(rooms, p, c), p), sender, text)
         == Deliveries(Members(rooms, p), sender, text) + [Delivery(c, text)]
  {
    var m := Members(rooms, p) + [c];
    assert m[..|m| - 1] == Members(rooms, p);
  }

  /** A first entry without the `jwt.` prefix is closed with 1008 and
      changes nothing. */
  lemma RejectsWithoutPrefix(header: Option<string>, decode: string -> Option<Claims>,
                             resolve: string -> Resolution, project: ProjectId, rows: Rows, grants: set<Grant>)
    requires !StartsWith(Candidate(header), "jwt.")
    ensures Handshake(header, decode, resolve, project, rows, grants) == (Closed(PolicyViolation), grants)
  {
  }

  /** A verified token without a `sub` claim raises `KeyError` before any
      grant. */
  lemma MissingSubjectRaises(header: Option<string>, decode: string -> Option<Claims>,
                             resolve: string -> Resolution, project: ProjectId, rows: Rows, grants: set<Grant>)
    requires StartsWith(Candidate(header), "jwt.") && decode(Candidate(header)[4..]).Some?
    requires "sub" !in decode(Candidate(header)[4..]).value
    ensures Handshake(header, decode, resolve, project, rows, grants) == (Raised(KeyError), grants)
  {
  }

  /** A token the verifier refuses is closed with 1008 before any grant. */
  lemma RejectsUnverifiedToken(header: Option<string>, decode: string -> Option<Claims>,
                               resolve: string -> Resolution, project: ProjectId, rows: Rows, grants: set<Grant>)
    requires StartsWith(Candidate(header), "jwt.") && decode(Candidate(header)[4..]).None?
    ensures Handshake(header, decode, resolve, project, rows, grants) == (Closed(PolicyViolation), grants)
  {
  }

  /** On acceptance the echoed sub-protocol is exactly the first offered
      entry, it is `"jwt."` followed by the token the verifier accepted, it
      holds no comma, and the grant set is the upsert's: the pair is
      stored afterwards exactly when it was stored already or both the
      user and the project have a row. */
  lemma {:induction false} AcceptEchoesFirstEntry(header: Option<string>, decode: string -> Option<Claims>,
                                                  resolve: string -> Resolution, project: ProjectId,
                                                  rows: Rows, grants: set<Grant>)
    requires Handshake(header, decode, resolve, project, rows, grants).0.Accepted?
    ensures var (out, after) := Handshake(header, decode, resolve, project, rows, grants);
      && out.subprotocol == Candidate(header)
      && |out.subprotocol| >= 4
      && out.subprotocol == "jwt." + out.subprotocol[4..]
      && decode(out.subprotocol[4..]).Some?
      && ',' !in out.subprotocol
      && after == RecordGrant(grants, rows, out.user, project)
      && ((out.user, project) in after <==>
            (out.user, project) in grants || (out.user in rows.users && project in rows.projects))
  {
    var b := Before(header.GetOr(""), ",");
    BeforeHasNoPattern(header.GetOr(""), ",");
    CharNotContained(b, ',');
    StripIsSlice(b);
  }

  /** Every stored grant names a user and a project that have a row, as
      the foreign keys ensure. */
  ghost predicate Consistent(grants: set<Grant>, rows: Rows) {
    forall g :: g in grants ==> g.0 in rows.users && g.1 in rows.projects
  }

  /** The upsert keeps the grant table consistent with the rows. */
  lemma GrantsStayConsistent(grants: set<Grant>, rows: Rows, user: UserId, project: ProjectId)
    requires Consistent(grants, rows)
    ensures Consistent(RecordGrant(grants, rows, user, project), rows)
  {
  }

  /** A connection to a project without a row, or by a user without one,
      is still accepted but stores no grant. */
  lemma MissingRowStoresNothing(header: Option<string>, decode: string -> Option<Claims>,
                                resolve: string -> Resolution, project: ProjectId, rows: Rows, grants: set<Grant>)
    requires Handshake(header, decode, resolve, project, rows, grants).0.Accepted?
    requires Handshake(header, decode, resolve, project, rows, grants).0.user !in rows.users || project !in rows.projects
    ensures Handshake(header, decode, resolve, project, rows, grants).1 == grants
  {
  }

  /** Running the handshake again with the same header records nothing new. */
  lemma GrantIsIdempotent(header: Option<string>, decode: string -> Option<Claims>,
                          resolve: string -> Resolution, project: ProjectId, rows: Rows, grants: set<Grant>)
    ensures var once := Handshake(header, decode, resolve, project, rows, grants).1;
      Handshake(header, decode, resolve, project, rows, once).1 == once
  {
  }

  /** `UUID(...)` never accepts an e-mail address: the '@' survives every
      clean-up step and is no hex digit. */
  lemma {:induction false} EmailIsNoUuid(s: string)
    requires '@' in s
    ensures ParseUuid(s) == None
  {
    ReplaceAllKeepsChar(s, "urn:", '@');
    var t := ReplaceAll(ReplaceAll(s, "urn:", ""), "uuid:", "");
    ReplaceAllKeepsChar(ReplaceAll(s, "urn:", ""), "uuid:", '@');
    StripOfKeepsChar(t, {'{', '}'}, '@');
    var h := ReplaceAll(StripOf(t, {'{', '}'}), "-", "");
    ReplaceAllKeepsChar(StripOf(t, {'{', '}'}), "-", '@');
    if |h| == 32 {
      HexIntRefuses(h, '@');
    }
  }

  /** `int(·, 16)` also reads a `0x` prefix: 30 hex digits behind it
      make a UUID, left-padded with two zeros. */
  lemma PrefixedHexAccepted(ds: string)
    requires |ds| == 30 && forall i :: 0 <= i < |ds| ==> IsHexDigit(ds[i])
    ensures ParseUuid("0x" + ds) == Some(Uuid(Lower("00" + ds)))
  {
    var s := "0x" + ds;
    assert forall i :: 0 <= i < |s| ==> IsHexDigit(s[i]) || s[i] == 'x';
    CleanedKeepsHex(s);
    PrefixedHexInt(ds);
    assert Pad32(ds) == "00" + ds;
  }

  /** Text made of hex digits and `x` passes the clean-up unchanged. */
  lemma CleanedKeepsHex(s: string)
    requires forall i :: 0 <= i < |s| ==> IsHexDigit(s[i]) || s[i] == 'x'
    ensures Cleaned(s) == s
  {
    MissingCharNotContained(s, "urn:", ':');
    ReplaceAllAbsent(s, "urn:", "");
    MissingCharNotContained(s, "uuid:", ':');
    ReplaceAllAbsent(s, "uuid:", "");
    assert StripOf(s, {'{', '}'}) == s;
    MissingCharNotContained(s, "-", '-');
    ReplaceAllAbsent(s, "-", "");
  }

  lemma PrefixedHexInt(ds: string)
    requires |ds| > 0 && forall i :: 0 <= i < |ds| ==> IsHexDigit(ds[i])
    ensures HexInt("0x" + ds) == Some((false, ds))
  {
    var s := "0x" + ds;
    assert s[|s| - 1] == ds[|ds| - 1];
    assert Strip(s) == s;
    assert s[2..] == ds;
    NoUnderscoreKept(ds);
  }

  lemma {:induction false} NoUnderscoreKept(w: string)
    requires forall i :: 0 <= i < |w| ==> IsHexDigit(w[i])
    ensures DropUnderscores(w) == w
  {
    if w != [] {
      NoUnderscoreKept(w[1..]);
      assert w == [w[0]] + w[1..];
    }
  }

  /** The tokens the login endpoint issues carry the e-mail as `sub`; with
      the code as written every such handshake raises `ValueError` before
      it is accepted, and no grant is written. */
  lemma EmailSubjectRaises(header: Option<string>, decode: string -> Option<Claims>,
                           project: ProjectId, rows: Rows, grants: set<Grant>)
    requires StartsWith(Candidate(header), "jwt.")
    requires decode(Candidate(header)[4..]).Some?
    requires "sub" in decode(Candidate(header)[4..]).value
    requires '@' in decode(Candidate(header)[4..]).value["sub"]
    ensures Handshake(header, decode, UuidSubject, project, rows, grants) == (Raised(ValueError), grants)
  {
    EmailIsNoUuid(decode(Candidate(header)[4..]).value["sub"]);
  }

  /** Resolving the e-mail through the directory admits the same
      connection and upserts the grant of the user that owns the e-mail,
      which is stored when both rows exist. */
  lemma DirectorySubjectAdmits(header: Option<string>, decode: string -> Option<Claims>,
                               directory: map<string, UserId>, project: ProjectId, rows: Rows, grants: set<Grant>)
    requires StartsWith(Candidate(header), "jwt.")
    requires decode(Candidate(header)[4..]).Some?
    requires "sub" in decode(Candidate(header)[4..]).value
    requires decode(Candidate(header)[4..]).value["sub"] in directory
    ensures var user := directory[decode(Candidate(header)[4..]).value["sub"]];
      Handshake(header, decode, sub => DirectorySubject(directory, sub), project, rows, grants)
      == (Accepted(Candidate(header), user), RecordGrant(grants, rows, user, project))
  {
  }

  // ---------------------------------------------------------------------
  // Properties of the registry operations.

  /** Join appends at the end, creating the list when absent; earlier
      members keep their places (nobody is evicted) and other rooms are
      untouched. */
  lemma JoinAppends(rooms: Rooms, p: ProjectId, c: ConnId)
    ensures var after := AfterJoin(rooms, p, c);
      && p in after && after[p] == Members(rooms, p) + [c]
      && after[p][..|Members(rooms, p)|] == Members(rooms, p)
      && forall q :: q != p ==> Members(after, q) == Members(rooms, q) && (q in after <==> q in rooms)
  {
  }

  lemma {:induction false} RemoveFirstOfAppended(s: seq<ConnId>, c: ConnId)
    requires c !in s
    ensures RemoveFirst(s + [c], c) == s
  {
    if s != [] {
      assert (s + [c])[1..] == s[1..] + [c];
      RemoveFirstOfAppended(s[1..], c);
    }
  }

  /** `list.remove` drops exactly one copy of the connection. */
  lemma {:induction false} RemoveFirstDropsOne(s: seq<ConnId>, c: ConnId)
    requires c in s
    ensures multiset(RemoveFirst(s, c)) == multiset(s) - multiset{c}
    ensures |RemoveFirst(s, c)| == |s| - 1
  {
    if s[0] != c {
      RemoveFirstDropsOne(s[1..], c);
      assert s == [s[0]] + s[1..];
    } else {
      assert s == [c] + s[1..];
    }
  }

  /** A connection that joins and then disconnects leaves the registry
      exactly as it found it, including the absence of an empty room. */
  lemma JoinThenLeaveRestores(rooms: Rooms, p: ProjectId, c: ConnId)
    requires NoEmptyRooms(rooms) && c !in Members(rooms, p)
    ensures c in AfterJoin(rooms, p, c)[p]
    ensures AfterLeave(AfterJoin(rooms, p, c), p, c) == rooms
  {
    RemoveFirstOfAppended(Members(rooms, p), c);
    if p !in rooms {
      assert AfterJoin(rooms, p, c) - {p} == rooms;
    }
  }

  /** Both operations keep every room non-empty. */
  lemma NoEmptyRoomsPreserved(rooms: Rooms, p: ProjectId, c: ConnId)
    requires NoEmptyRooms(rooms)
    ensures NoEmptyRooms(AfterJoin(rooms, p, c))
    ensures p in rooms && c in rooms[p] ==> NoEmptyRooms(AfterLeave(rooms, p, c))
  {
  }

  /** A relay pass reaches every member other than the sender, once per
      time it is listed, and never the sender. */
  lemma {:induction false} DeliveriesReachOthers(members: seq<ConnId>, sender: ConnId, text: string)
    ensures forall x :: multiset(Recipients(Deliveries(members, sender, text)))[x]
                        == if x == sender then 0 else multiset(members)[x]
    ensures forall d :: d in Deliveries(members, sender, text) ==> d.text == text
  {
    if members != [] {
      var n := |members|;
      var init := members[..n - 1];
      DeliveriesReachOthers(init, sender, text);
      assert members == init + [members[n - 1]];
      var ds := Deliveries(members, sender, text);
      var extra := if members[n - 1] != sender then [Delivery(members[n - 1], text)] else [];
      assert ds == Deliveries(init, sender, text) + extra;
      assert Recipients(ds) == Recipients(Deliveries(init, sender, text)) + Recipients(extra);
    }
  }

  /** A sender alone in its room sends nothing. */
  lemma AloneSendsNothing(sender: ConnId, text: string)
    ensures Deliveries([sender], sender, text) == []
  {
  }

  /** Across a whole session the sender never receives its own texts. */
  lemma {:induction false} RelayNeverEchoes(members: seq<ConnId>, sender: ConnId, inbound: seq<string>)
    ensures forall d :: d in Relay(members, sender, inbound) ==> d.to != sender && d.to in members
  {
    if inbound != [] {
      RelayNeverEchoes(members, sender, inbound[..|inbound| - 1]);
      DeliveriesTargets(members, sender, inbound[|inbound| - 1]);
    }
  }

  lemma {:induction false} DeliveriesTargets(members: seq<ConnId>, sender: ConnId, text: string)
    ensures forall d :: d in Deliveries(members, sender, text) ==> d.to != sender && d.to in members
  {
    if members != [] {
      DeliveriesTargets(members[..|members| - 1], sender, text);
    }
  }

  // ---------------------------------------------------------------------

  /** The module-level `_rooms` dictionary together with the grant table it
      is paired with at connection time. */
  class CollaborationHub {
    var rooms: Rooms
    var grants: set<Grant>

    ghost predicate Valid()
      reads this
    {
      NoEmptyRooms(rooms)
    }

    constructor ()
      ensures Valid() && rooms == map[] && grants == {}
    {
      rooms := map[];
      grants := {};
    }

    /** The handshake: may record a grant, never touches the rooms. */
    method Admit(header: Option<string>, decode: string -> Option<Claims>,
                 resolve: string -> Resolution, p: ProjectId, rows: Rows) returns (outcome: Outcome)
      modifies this`grants
      ensures (outcome, grants) == Handshake(header, decode, resolve, p, rows, old(grants))
      ensures Consistent(old(grants), rows) ==> Consistent(grants, rows)
    {
      var r := Handshake(header, decode, resolve, p, rows, grants);
      outcome := r.0;
      grants := r.1;
    }

    method Join(p: ProjectId, c: ConnId)
      requires Valid()
      modifies this`rooms
      ensures Valid()
      ensures rooms == AfterJoin(old(rooms), p, c)
    {
      var members := if p in rooms then rooms[p] else [];
      rooms := rooms[p := members + [c]];
    }

    /** One pass of the relay loop for a text received from `sender`. */
    method Broadcast(p: ProjectId, sender: ConnId, text: string) returns (sent: seq<Delivery>)
      requires p in rooms
      ensures sent == Deliveries(rooms[p], sender, text)
    {
      var peers := rooms[p];
      sent := [];
      var i := 0;
      while i < |peers|
        invariant 0 <= i <= |peers|
        invariant sent == Deliveries(peers[..i], sender, text)
      {
        assert peers[..i + 1][..i] == peers[..i];
        if peers[i] != sender {
          sent := sent + [Delivery(peers[i], text)];
        }
        i := i + 1;
      }
      assert peers[..i] == peers;
    }

    /** The receive loop: one relay pass per text, in arrival order. */
    method RelaySession(p: ProjectId, sender: ConnId, inbound: seq<string>) returns (sent: seq<Delivery>)
      requires p in rooms
      ensures sent == Relay(rooms[p], sender, inbound)
    {
      sent := [];
      var i := 0;
      while i < |inbound|
        invariant 0 <= i <= |inbound|
        invariant sent == Relay(rooms[p], sender, inbound[..i])
      {
        assert inbound[..i + 1][..i] == inbound[..i];
        var out := Broadcast(p, sender, inbound[i]);
        sent := sent + out;
        i := i + 1;
      }
      assert inbound[..i] == inbound;
    }

    /** The `WebSocketDisconnect` handler.  It raises `KeyError` when the
        room is gone and `ValueError` when the connection is not in it; the
        registry is then unchanged. */
    method Disconnect(p: ProjectId, c: ConnId) returns (error: Option<PyError>)
      requires Valid()
      modifies this`rooms
      ensures Valid()
      ensures p !in old(rooms) ==> error == Some(KeyError) && rooms == old(rooms)
      ensures p in old(rooms) && c !in old(rooms)[p] ==> error == Some(ValueError) && rooms == old(rooms)
      ensures p in old(rooms) && c in old(rooms)[p] ==> error == None && rooms == AfterLeave(old(rooms), p, c)
    {
      if p !in rooms {
        return Some(KeyError);
      }
      if c !in rooms[p] {
        return Some(ValueError);
      }
      var rest := RemoveFirst(rooms[p], c);
      if rest == [] {
        rooms := rooms - {p};
      } else {
        rooms := rooms[p := rest];
      }
      error := None;
    }

    /** One whole connection: handshake, join, one relay pass per received
        text, then the end of the session.  Only `WebSocketDisconnect` runs
        the clean-up; the `KeyError` of a non-text frame escapes the handler
        and leaves the connection in its room. */
    method ProjectWs(p: ProjectId, c: ConnId, header: Option<string>, decode: string -> Option<Claims>,
                     resolve: string -> Resolution, rows: Rows, inbound: seq<string>, ending: SessionEnd)
      returns (outcome: Outcome, sent: seq<Delivery>, escaped: Option<PyError>)
      requires Valid() && c !in Members(rooms, p)
      modifies this
      ensures Valid()
      ensures (outcome, grants) == Handshake(header, decode, resolve, p, rows, old(grants))
      ensures outcome.Accepted? ==> sent == Relay(Members(old(rooms), p) + [c], c, inbound)
      ensures !outcome.Accepted? ==> sent == [] && rooms == old(rooms) && escaped == None
      ensures outcome.Accepted? && ending.ClientDisconnect? ==> rooms == old(rooms) && escaped == None
      ensures outcome.Accepted? && ending.NonTextFrame? ==>
        rooms == AfterJoin(old(rooms), p, c) && escaped == Some(KeyError)
    {
      sent := [];
      escaped := None;
      outcome := Admit(header, decode, resolve, p, rows);
      if !outcome.Accepted? {
        return;
      }
      ghost var before := rooms;
      Join(p, c);
      sent := RelaySession(p, c, inbound);
      if ending.NonTextFrame? {
        escaped := Some(KeyError);
        return;
      }
      JoinThenLeaveRestores(before, p, c);
      var error := Disconnect(p, c);
    }
  }
}
