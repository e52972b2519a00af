/**
 Host-key verification over a known_hosts file: which entries name a host, what
 a scan of the file finds, and trust on first use over whole runs. The file is
 the sequence of its parsed lines (sshd(8), section SSH_KNOWN_HOSTS FILE
 FORMAT); HMAC-SHA1 is the parameter `mac`, from salt and host to hash.
 */
module KnownHosts {
  import opened Common
  import opened Wildcard
  import Decimal

  type Name = seq<Byte>
  type Key = seq<Byte>
  type Mac = (seq<Byte>, Name) -> seq<Byte>

  const BANG: Byte := 33
  const COLON: Byte := 58
  const OPEN_BRACKET: Byte := 91
  const CLOSE_BRACKET: Byte := 93

  datatype HostPatterns = HashedName(salt: seq<Byte>, hash: seq<Byte>) | Patterns(list: seq<seq<Byte>>)

  datatype Marker = Revoked | CertAuthority

  datatype Entry = Malformed | Entry(patterns: HostPatterns, marker: Option<Marker>, key: Key)

  datatype Refusal = MalformedFile | RevokedKey | ChangedKey | UnreadableSystemFile | Inaccessible | NotWritten

  datatype Finding = Finding(found: bool, trusted: bool)

  datatype SystemFile = Absent | Unreadable | Text(entries: seq<Entry>)

  datatype Verdict = Accepted | Refused(why: Refusal)

  /** How the user's own file behaves: it opens, locks and reads, or not; appending works, or leaves some lines behind and fails. */
  datatype Disk = Working | Unopenable | AppendFails(remains: seq<Entry>)

  // ---- Matching one entry against a host name ----

  predicate Negative(p: seq<Byte>) {
    p != [] && p[0] == BANG
  }

  predicate Hit(p: seq<Byte>, host: Name) {
    LiteralFirst(if Negative(p) then p[1..] else p, host)
  }

  /** A hashed name is compared by hash; a list needs a positive hit and no negative one. */
  predicate Matches(mac: Mac, patterns: HostPatterns, host: Name) {
    match patterns
    case HashedName(salt, hash) => mac(salt, host) == hash
    case Patterns(list) =>
      && (exists i :: 0 <= i < |list| && !Negative(list[i]) && Hit(list[i], host))
      && (forall i :: 0 <= i < |list| && Negative(list[i]) ==> !Hit(list[i], host))
  }

  method MatchesHost(mac: Mac, patterns: HostPatterns, host: Name) returns (r: bool)
    ensures r == Matches(mac, patterns, host)
  {
    match patterns {
      case HashedName(salt, hash) =>
        return mac(salt, host) == hash;
      case Patterns(list) =>
        var matched := false;
        for n := 0 to |list|
          invariant matched <==> exists i :: 0 <= i < n && !Negative(list[i]) && Hit(list[i], host)
          invariant forall i :: 0 <= i < n && Negative(list[i]) ==> !Hit(list[i], host)
        {
          if Negative(list[n]) {
            var hit := Wildcard.Wildcard(list[n][1..], host);
            if hit {
              return false;
            }
          } else {
            var hit := Wildcard.Wildcard(list[n], host);
            if hit {
              matched := true;
            }
          }
        }
        return matched;
    }
  }

  // ---- Scanning a file ----

  /** One more line after a scan that met no fault. */
  function Examine(mac: Mac, seen: Finding, e: Entry, host: Name, key: Key): Result<Finding, Refusal> {
    if e.Malformed? then Err(MalformedFile)
    else if !Matches(mac, e.patterns, host) then Ok(seen)
    else if e.marker == Some(Revoked) then
      if e.key == key then Err(RevokedKey) else Ok(seen)
    else if e.marker == Some(CertAuthority) then Ok(Finding(true, seen.trusted))
    else Ok(Finding(true, seen.trusted || e.key == key))
  }

  function Inspect(mac: Mac, entries: seq<Entry>, host: Name, key: Key): Result<Finding, Refusal> {
    if entries == [] then Ok(Finding(false, false))
    else
      match Inspect(mac, entries[..|entries| - 1], host, key)
      case Err(why) => Err(why)
      case Ok(seen) => Examine(mac, seen, entries[|entries| - 1], host, key)
  }

  predicate Faulty(mac: Mac, e: Entry, host: Name, key: Key) {
    e.Malformed? || (Matches(mac, e.patterns, host) && e.marker == Some(Revoked) && e.key == key)
  }

  /** The line names this host with a key that is not revoked. */
  predicate Names(mac: Mac, e: Entry, host: Name) {
    e.Entry? && Matches(mac, e.patterns, host) && e.marker != Some(Revoked)
  }

  predicate Vouches(mac: Mac, e: Entry, host: Name, key: Key) {
    Names(mac, e, host) && e.marker == None && e.key == key
  }

  /** A scan fails exactly on a malformed or revoking line, and otherwise reports exactly what is there. */
  lemma {:induction false} InspectMeaning(mac: Mac, entries: seq<Entry>, host: Name, key: Key)
    ensures var r := Inspect(mac, entries, host, key);
            && (r.Ok? <==> forall e :: e in entries ==> !Faulty(mac, e, host, key))
            && (r.Ok? ==>
                  && (r.value.found <==> exists e :: e in entries && Names(mac, e, host))
                  && (r.value.trusted <==> exists e :: e in entries && Vouches(mac, e, host, key)))
  {
    if entries != [] {
      var n := |entries| - 1;
      var front, last := entries[..n], entries[n];
      InspectMeaning(mac, front, host, key);
      assert entries == front + [last];
      assert forall e :: e in entries <==> e in front || e == last;
      var before := Inspect(mac, front, host, key);
      if before.Ok? {
        ExamineMeaning(mac, before.value, last, host, key);
      } else {
        var bad :| bad in front && Faulty(mac, bad, host, key);
        assert bad in entries;
      }
    }
  }

  lemma ExamineMeaning(mac: Mac, seen: Finding, e: Entry, host: Name, key: Key)
    ensures var r := Examine(mac, seen, e, host, key);
            && (r.Ok? <==> !Faulty(mac, e, host, key))
            && (r.Ok? ==>
                  && (r.value.found <==> seen.found || Names(mac, e, host))
                  && (r.value.trusted <==> seen.trusted || Vouches(mac, e, host, key)))
  {
    if e.Entry? && e.marker.Some? {
      assert e.marker.value.Revoked? || e.marker.value.CertAuthority?;
    }
  }

  method InspectFile(mac: Mac, entries: seq<Entry>, host: Name, key: Key)
    returns (r: Result<Finding, Refusal>)
    ensures r == Inspect(mac, entries, host, key)
  {
    var found, trusted := false, false;
    for n := 0 to |entries|
      invariant Inspect(mac, entries[..n], host, key) == Ok(Finding(found, trusted))
    {
      ghost var read := entries[..n + 1];
      assert read[..|read| - 1] == entries[..n];
      var entry := entries[n];
      if entry.Malformed? {
        FaultStops(mac, entries, n + 1, host, key);
        return Err(MalformedFile);
      }
      var matched := MatchesHost(mac, entry.patterns, host);
      if !matched {
        continue;
      }
      var same := entry.key == key;
      if entry.marker == Some(Revoked) {
        if same {
          FaultStops(mac, entries, n + 1, host, key);
          return Err(RevokedKey);
        }
        continue;
      }
      found := true;
      if entry.marker == Some(CertAuthority) {
        continue;
      }
      trusted := trusted || same;
    }
    assert entries[..|entries|] == entries;
    return Ok(Finding(found, trusted));
  }

  lemma {:induction false} FaultStops(mac: Mac, entries: seq<Entry>, n: nat, host: Name, key: Key)
    requires n <= |entries| && Inspect(mac, entries[..n], host, key).Err?
    ensures Inspect(mac, entries, host, key) == Inspect(mac, entries[..n], host, key)
    decreases |entries|
  {
    if n == |entries| {
      assert entries[..n] == entries;
    } else {
      var front := entries[..|entries| - 1];
      assert front[..n] == entries[..n];
      FaultStops(mac, front, n, host, key);
    }
  }

  // ---- One verification ----

  function LowerName(host: Name): Name {
    seq(|host|, i requires 0 <= i < |host| => Lower(host[i]))
  }

  function ByteOf(d: Decimal.Digit): Byte {
    var n: int := d;
    48 + n
  }

  function PortDigits(port: nat): Name {
    var ds := Decimal.Digits(port);
    seq(|ds|, i requires 0 <= i < |ds| => ByteOf(ds[i]))
  }

  /** The name a record uses: bare for port 22, bracketed with the port otherwise. */
  function RecordName(host: Name, port: nat): Name {
    if port == 22 then LowerName(host)
    else [OPEN_BRACKET] + LowerName(host) + [CLOSE_BRACKET, COLON] + PortDigits(port)
  }

  function NewRecord(name: Name, key: Key): Entry {
    Entry(Patterns([name]), None, key)
  }

  function InspectSystem(mac: Mac, system: SystemFile, name: Name, key: Key): Result<Finding, Refusal> {
    match system
    case Absent => Ok(Finding(false, false))
    case Unreadable => Err(UnreadableSystemFile)
    case Text(entries) => Inspect(mac, entries, name, key)
  }

  /** The verdict on a key and the file it leaves behind. */
  function Decide(mac: Mac, system: SystemFile, file: seq<Entry>, name: Name, key: Key): (Verdict, seq<Entry>) {
    match InspectSystem(mac, system, name, key)
    case Err(why) => (Refused(why), file)
    case Ok(global) =>
      match Inspect(mac, file, name, key)
      case Err(why) => (Refused(why), file)
      case Ok(local) =>
        if local.trusted || global.trusted then (Accepted, file)
        else if local.found || global.found then (Refused(ChangedKey), file)
        else (Accepted, file + [NewRecord(name, key)])
  }

  /** The same with a disk that may fail: the system file is read first, the own file after it. */
  function DecideOn(mac: Mac, system: SystemFile, disk: Disk, file: seq<Entry>, name: Name, key: Key): (Verdict, seq<Entry>) {
    if InspectSystem(mac, system, name, key).Err? then (Refused(InspectSystem(mac, system, name, key).error), file)
    else if disk.Unopenable? then (Refused(Inaccessible), file)
    else
      var decision := Decide(mac, system, file, name, key);
      if disk.AppendFails? && decision.1 != file then (Refused(NotWritten), file + disk.remains) else decision
  }

  class KnownHostsFile {
    var entries: seq<Entry>

    constructor (entries: seq<Entry>)
      ensures this.entries == entries
    {
      this.entries := entries;
    }

    method Verify(mac: Mac, system: SystemFile, disk: Disk, host: Name, port: nat, key: Key) returns (verdict: Verdict)
      modifies this
      ensures (verdict, entries) == DecideOn(mac, system, disk, old(entries), RecordName(host, port), key)
    {
      var name := LowerName(host);
      if port != 22 {
        name := [OPEN_BRACKET] + name + [CLOSE_BRACKET, COLON] + PortDigits(port);
      }
      var global := Finding(false, false);
      match system {
        case Absent =>
        case Unreadable =>
          return Refused(UnreadableSystemFile);
        case Text(text) =>
          var scan := InspectFile(mac, text, name, key);
          if scan.Err? {
            return Refused(scan.error);
          }
          global := scan.value;
      }
      if disk.Unopenable? {
        return Refused(Inaccessible);
      }
      var local := InspectFile(mac, entries, name, key);
      if local.Err? {
        return Refused(local.error);
      }
      if local.value.trusted || global.trusted {
        return Accepted;
      }
      if local.value.found || global.found {
        return Refused(ChangedKey);
      }
      if disk.AppendFails? {
        entries := entries + disk.remains;
        return Refused(NotWritten);
      }
      entries := entries + [NewRecord(name, key)];
      return Accepted;
    }
  }

  // ---- Names of valid hosts ----

  /** Bytes that `host_valid` admits: letters, digits and `.-_:`. */
  predicate HostByte(b: Byte) {
    48 <= b <= 57 || 65 <= b <= 90 || 97 <= b <= 122 || b == 46 || b == 45 || b == 95 || b == COLON
  }

  predicate ValidHost(host: Name) {
    host != [] && forall i :: 0 <= i < |host| ==> HostByte(host[i])
  }

  /** A record name that no pattern feature can touch. */
  predicate PlainByte(b: Byte) {
    b != STAR && b != QUESTION && b != BANG && Lower(b) == b
  }

  predicate Plain(name: Name) {
    name != [] && forall i :: 0 <= i < |name| ==> PlainByte(name[i])
  }

  lemma RecordNameIsPlain(host: Name, port: nat)
    requires ValidHost(host)
    ensures Plain(RecordName(host, port))
  {
    var name := RecordName(host, port);
    forall i | 0 <= i < |LowerName(host)| ensures PlainByte(LowerName(host)[i]) {
      assert HostByte(host[i]);
    }
    if port != 22 {
      var h, d := |host|, PortDigits(port);
      forall i | 0 <= i < |name| ensures PlainByte(name[i]) {
        if 1 <= i <= h {
          assert name[i] == LowerName(host)[i - 1];
        } else if i >= h + 3 {
          assert name[i] == d[i - h - 3];
        }
      }
    }
  }

  /** For the names that are looked up, the pattern loop decides the pattern language on every list. */
  lemma HostPatternsMeaning(mac: Mac, list: seq<seq<Byte>>, host: Name, port: nat)
    requires ValidHost(host)
    ensures var name := RecordName(host, port);
            Matches(mac, Patterns(list), name) <==>
              && (exists i :: 0 <= i < |list| && !Negative(list[i]) && Match(list[i], name))
              && (forall i :: 0 <= i < |list| && Negative(list[i]) ==> !Match(list[i][1..], name))
  {
    var name := RecordName(host, port);
    RecordNameIsPlain(host, port);
    assert STAR !in name;
    forall p ensures LiteralFirst(p, name) == Match(p, name) {
      AgreeWithoutStar(p, name);
    }
  }

  lemma CloseBracketAt(a: Name, b: Name, s: Name, t: Name)
    requires CLOSE_BRACKET !in a && CLOSE_BRACKET !in b
    requires a + [CLOSE_BRACKET] + s == b + [CLOSE_BRACKET] + t
    ensures a == b && s == t
  {
    var u, w := a + [CLOSE_BRACKET] + s, b + [CLOSE_BRACKET] + t;
    assert u[|a|] == CLOSE_BRACKET && w[|b|] == CLOSE_BRACKET;
    assert forall i :: 0 <= i < |a| ==> u[i] == a[i];
    assert forall i :: 0 <= i < |b| ==> w[i] == b[i];
    assert |a| == |b|;
    assert a == u[..|a|] == w[..|b|] == b;
    assert s == u[|a| + 1..] == w[|b| + 1..] == t;
  }

  /** Two valid host and port pairs share a record name only if they are the same up to case. */
  lemma RecordNameInjective(h1: Name, p1: nat, h2: Name, p2: nat)
    requires ValidHost(h1) && ValidHost(h2)
    ensures RecordName(h1, p1) == RecordName(h2, p2) <==> LowerName(h1) == LowerName(h2) && p1 == p2
  {
    var n1, n2 := RecordName(h1, p1), RecordName(h2, p2);
    assert HostByte(h1[0]) && HostByte(h2[0]);
    assert LowerName(h1)[0] != OPEN_BRACKET && LowerName(h2)[0] != OPEN_BRACKET;
    assert p1 != 22 ==> n1[0] == OPEN_BRACKET;
    assert p2 != 22 ==> n2[0] == OPEN_BRACKET;
    if n1 == n2 && p1 != 22 && p2 != 22 {
      var l1, l2 := LowerName(h1), LowerName(h2);
      assert CLOSE_BRACKET !in l1 by {
        forall i | 0 <= i < |l1| ensures l1[i] != CLOSE_BRACKET { assert HostByte(h1[i]); }
      }
      assert CLOSE_BRACKET !in l2 by {
        forall i | 0 <= i < |l2| ensures l2[i] != CLOSE_BRACKET { assert HostByte(h2[i]); }
      }
      var s, t := [COLON] + PortDigits(p1), [COLON] + PortDigits(p2);
      assert n1[1..] == l1 + [CLOSE_BRACKET] + s;
      assert n2[1..] == l2 + [CLOSE_BRACKET] + t;
      CloseBracketAt(l1, l2, s, t);
      assert PortDigits(p1) == s[1..] == t[1..] == PortDigits(p2);
      SameDigits(p1, p2);
    }
  }

  lemma SameDigits(m: nat, n: nat)
    requires PortDigits(m) == PortDigits(n)
    ensures m == n
  {
    var c, d := Decimal.Digits(m), Decimal.Digits(n);
    assert |c| == |PortDigits(m)| == |PortDigits(n)| == |d|;
    forall i | 0 <= i < |c| ensures c[i] == d[i] {
      assert ByteOf(c[i]) == PortDigits(m)[i] == PortDigits(n)[i] == ByteOf(d[i]);
    }
    assert c == d;
    Decimal.DigitsInjective(m, n);
  }

  // ---- What an appended record means ----

  lemma {:induction false} PlainLiteral(p: Name, v: Name)
    requires forall i :: 0 <= i < |p| ==> PlainByte(p[i])
    requires forall i :: 0 <= i < |v| ==> PlainByte(v[i])
    ensures LiteralFirst(p, v) <==> p == v
  {
    if p != [] && v != [] && Accepts(p[0], v[0]) {
      PlainLiteral(p[1..], v[1..]);
      assert p == [p[0]] + p[1..] && v == [v[0]] + v[1..];
    }
  }

  /** The record written for one name matches that name and no other. */
  lemma RecordMatchesOnlyItsName(mac: Mac, written: Name, name: Name, key: Key)
    requires Plain(written) && Plain(name)
    ensures Matches(mac, NewRecord(written, key).patterns, name) <==> written == name
  {
    PlainLiteral(written, name);
    var list := [written];
    assert PlainByte(written[0]);
    assert !Negative(list[0]);
    assert Hit(list[0], name) <==> written == name;
  }

  /** Appending a record for another name changes no verdict. */
  lemma ForeignRecord(mac: Mac, system: SystemFile, file: seq<Entry>, written: Name, k: Key, name: Name, key: Key)
    requires Plain(written) && Plain(name) && written != name
    ensures var longer := file + [NewRecord(written, k)];
            && Inspect(mac, longer, name, key) == Inspect(mac, file, name, key)
            && Decide(mac, system, longer, name, key).0 == Decide(mac, system, file, name, key).0
  {
    var longer := file + [NewRecord(written, k)];
    assert longer[..|longer| - 1] == file;
    RecordMatchesOnlyItsName(mac, written, name, k);
  }

  // ---- Trust on first use over whole runs ----

  datatype Call = Call(host: Name, port: nat, key: Key)

  predicate ValidCalls(calls: seq<Call>) {
    forall i :: 0 <= i < |calls| ==> ValidHost(calls[i].host)
  }

  function AfterCalls(mac: Mac, system: SystemFile, file: seq<Entry>, calls: seq<Call>): seq<Entry>
    decreases |calls|
  {
    if calls == [] then file
    else
      var next := Decide(mac, system, file, RecordName(calls[0].host, calls[0].port), calls[0].key).1;
      AfterCalls(mac, system, next, calls[1..])
  }

  /** No verification of this name writes any more. */
  ghost predicate Pinned(mac: Mac, system: SystemFile, file: seq<Entry>, name: Name) {
    forall key :: Decide(mac, system, file, name, key).1 == file
  }

  /** Whether a name is known at all does not depend on the key that is offered. */
  lemma FoundForAnyKey(mac: Mac, entries: seq<Entry>, name: Name, k1: Key, k2: Key)
    requires Inspect(mac, entries, name, k1).Ok? && Inspect(mac, entries, name, k2).Ok?
    ensures Inspect(mac, entries, name, k1).value.found == Inspect(mac, entries, name, k2).value.found
  {
    InspectMeaning(mac, entries, name, k1);
    InspectMeaning(mac, entries, name, k2);
  }

  lemma TrustedIsFound(mac: Mac, entries: seq<Entry>, name: Name, key: Key)
    requires Inspect(mac, entries, name, key).Ok?
    ensures Inspect(mac, entries, name, key).value.trusted ==> Inspect(mac, entries, name, key).value.found
  {
    InspectMeaning(mac, entries, name, key);
  }

  /** The name is known, in the file or in the system file, whatever key is offered. */
  predicate Known(mac: Mac, system: SystemFile, file: seq<Entry>, name: Name, key: Key) {
    var global, local := InspectSystem(mac, system, name, key), Inspect(mac, file, name, key);
    global.Ok? && local.Ok? && (global.value.found || local.value.found)
  }

  lemma KnownForAnyKey(mac: Mac, system: SystemFile, file: seq<Entry>, name: Name, key: Key, other: Key)
    requires Known(mac, system, file, name, key)
    ensures Decide(mac, system, file, name, other).1 == file
  {
    if InspectSystem(mac, system, name, other).Ok? && Inspect(mac, file, name, other).Ok? {
      FoundForAnyKey(mac, file, name, key, other);
      if system.Text? {
        FoundForAnyKey(mac, system.entries, name, key, other);
      }
    }
  }

  lemma WrittenIsKnown(mac: Mac, system: SystemFile, file: seq<Entry>, name: Name, key: Key)
    requires Plain(name) && Decide(mac, system, file, name, key) == (Accepted, file + [NewRecord(name, key)])
    ensures var after := file + [NewRecord(name, key)];
            Known(mac, system, after, name, key) && Decide(mac, system, after, name, key).0 == Accepted
  {
    var after := file + [NewRecord(name, key)];
    assert after[..|after| - 1] == file;
    RecordMatchesOnlyItsName(mac, name, name, key);
  }

  lemma TrustedIsKnown(mac: Mac, system: SystemFile, file: seq<Entry>, name: Name, key: Key)
    requires Decide(mac, system, file, name, key) == (Accepted, file)
    ensures Known(mac, system, file, name, key)
  {
    TrustedIsFound(mac, file, name, key);
    if system.Text? {
      TrustedIsFound(mac, system.entries, name, key);
    }
    assert file != file + [NewRecord(name, key)];
  }

  lemma AcceptedIsKnown(mac: Mac, system: SystemFile, file: seq<Entry>, name: Name, key: Key)
    requires Plain(name) && Decide(mac, system, file, name, key).0 == Accepted
    ensures var after := Decide(mac, system, file, name, key).1;
            Known(mac, system, after, name, key) && Decide(mac, system, after, name, key).0 == Accepted
  {
    if Decide(mac, system, file, name, key).1 == file {
      TrustedIsKnown(mac, system, file, name, key);
    } else {
      WrittenIsKnown(mac, system, file, name, key);
    }
  }

  lemma FirstUseRefusesOthers(mac: Mac, system: SystemFile, file: seq<Entry>, name: Name, key: Key, other: Key)
    requires Plain(name) && other != key && Decide(mac, system, file, name, key) == (Accepted, file + [NewRecord(name, key)])
    ensures Decide(mac, system, file + [NewRecord(name, key)], name, other).0.Refused?
  {
    var after := file + [NewRecord(name, key)];
    AcceptedIsKnown(mac, system, file, name, key);
    KnownForAnyKey(mac, system, after, name, key, other);
    if InspectSystem(mac, system, name, other).Ok? && Inspect(mac, after, name, other).Ok? {
      FirstUseTrustsNoOther(mac, file, name, key, other);
      if system.Text? {
        FoundForAnyKey(mac, system.entries, name, key, other);
        TrustedIsFound(mac, system.entries, name, other);
      }
    }
  }

  /** One acceptance pins the name; on a first use it pins it to that one key. */
  lemma AcceptancePins(mac: Mac, system: SystemFile, file: seq<Entry>, name: Name, key: Key)
    requires Plain(name) && Decide(mac, system, file, name, key).0 == Accepted
    ensures var after := Decide(mac, system, file, name, key).1;
            && Pinned(mac, system, after, name)
            && Decide(mac, system, after, name, key).0 == Accepted
            && (after != file ==>
                  forall other :: other != key ==> Decide(mac, system, after, name, other).0.Refused?)
  {
    var after := Decide(mac, system, file, name, key).1;
    AcceptedIsKnown(mac, system, file, name, key);
    forall other ensures Decide(mac, system, after, name, other).1 == after {
      KnownForAnyKey(mac, system, after, name, key, other);
    }
    forall other | after != file && other != key ensures Decide(mac, system, after, name, other).0.Refused? {
      FirstUseRefusesOthers(mac, system, file, name, key, other);
    }
  }

  /** However the disk fails, a key is accepted only if a line on disk afterwards, or the system file, vouches for it. */
  lemma AcceptedIsOnDisk(mac: Mac, system: SystemFile, disk: Disk, file: seq<Entry>, name: Name, key: Key)
    requires Plain(name) && DecideOn(mac, system, disk, file, name, key).0 == Accepted
    ensures var after := DecideOn(mac, system, disk, file, name, key).1;
            || (exists e :: e in after && Vouches(mac, e, name, key))
            || (system.Text? && exists e :: e in system.entries && Vouches(mac, e, name, key))
  {
    var after := DecideOn(mac, system, disk, file, name, key).1;
    InspectMeaning(mac, file, name, key);
    if system.Text? {
      InspectMeaning(mac, system.entries, name, key);
    }
    if after != file {
      RecordMatchesOnlyItsName(mac, name, name, key);
      assert NewRecord(name, key) in after && Vouches(mac, NewRecord(name, key), name, key);
    }
  }

  /** After a first use the file vouches for no second key. */
  lemma FirstUseTrustsNoOther(mac: Mac, file: seq<Entry>, name: Name, key: Key, other: Key)
    requires Plain(name) && other != key
    requires Inspect(mac, file, name, key) == Ok(Finding(false, false))
    requires Inspect(mac, file + [NewRecord(name, key)], name, other).Ok?
    ensures !Inspect(mac, file + [NewRecord(name, key)], name, other).value.trusted
  {
    var after := file + [NewRecord(name, key)];
    assert after[..|after| - 1] == file;
    FoundForAnyKey(mac, file, name, key, other);
    TrustedIsFound(mac, file, name, other);
  }

  lemma {:induction false} PinnedNamesStay(mac: Mac, system: SystemFile, file: seq<Entry>, name: Name, calls: seq<Call>, key: Key)
    requires Plain(name) && ValidCalls(calls) && Pinned(mac, system, file, name)
    ensures var later := AfterCalls(mac, system, file, calls);
            Decide(mac, system, later, name, key) == (Decide(mac, system, file, name, key).0, later)
    decreases |calls|
  {
    if calls != [] {
      var c := calls[0];
      var other := RecordName(c.host, c.port);
      RecordNameIsPlain(c.host, c.port);
      var next := Decide(mac, system, file, other, c.key).1;
      assert ValidCalls(calls[1..]);
      if next != file {
        assert other != name;
        forall k
          ensures Decide(mac, system, next, name, k) == (Decide(mac, system, file, name, k).0, next)
        {
          assert Decide(mac, system, file, name, k).1 == file;
          ForeignRecord(mac, system, file, other, c.key, name, k);
        }
      }
      PinnedNamesStay(mac, system, next, name, calls[1..], key);
    }
  }

  /**
   Trust on first use: from an acceptance on, and over every later sequence of
   verifications of valid hosts, each key offered for that host and port gets
   one fixed verdict and nothing more is written for them; the accepted key
   stays accepted, and if it was accepted by a first use every other key is
   refused.
   */
  lemma TrustOnFirstUse(mac: Mac, system: SystemFile, file: seq<Entry>, first: Call, later: seq<Call>, key: Key)
    requires ValidHost(first.host) && ValidCalls(later)
    requires Decide(mac, system, file, RecordName(first.host, first.port), first.key).0 == Accepted
    ensures var name := RecordName(first.host, first.port);
            var accepted := Decide(mac, system, file, name, first.key).1;
            var now := AfterCalls(mac, system, accepted, later);
            && Decide(mac, system, now, name, key) == (Decide(mac, system, accepted, name, key).0, now)
            && (key == first.key ==> Decide(mac, system, now, name, key).0 == Accepted)
            && (accepted != file && key != first.key ==> Decide(mac, system, now, name, key).0.Refused?)
  {
    var name := RecordName(first.host, first.port);
    RecordNameIsPlain(first.host, first.port);
    AcceptancePins(mac, system, file, name, first.key);
    PinnedNamesStay(mac, system, Decide(mac, system, file, name, first.key).1, name, later, key);
  }

  /** Verifications of other host and port pairs never change a pair's verdicts, known or not. */
  lemma {:induction false} OtherHostsDoNotMatter(mac: Mac, system: SystemFile, file: seq<Entry>, host: Name, port: nat, calls: seq<Call>, key: Key)
    requires ValidHost(host) && ValidCalls(calls)
    requires forall i :: 0 <= i < |calls| ==> LowerName(calls[i].host) != LowerName(host) || calls[i].port != port
    ensures var name := RecordName(host, port);
            Decide(mac, system, AfterCalls(mac, system, file, calls), name, key).0
            == Decide(mac, system, file, name, key).0
    decreases |calls|
  {
    if calls != [] {
      var c := calls[0];
      var name, other := RecordName(host, port), RecordName(c.host, c.port);
      RecordNameIsPlain(host, port);
      RecordNameIsPlain(c.host, c.port);
      RecordNameInjective(host, port, c.host, c.port);
      var next := Decide(mac, system, file, other, c.key).1;
      if next != file {
        ForeignRecord(mac, system, file, other, c.key, name, key);
      }
      assert ValidCalls(calls[1..]);
      OtherHostsDoNotMatter(mac, system, next, host, port, calls[1..], key);
    }
  }
}
