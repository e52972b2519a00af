/** Verification told from the lines of the file as they are spelled: sshd(8), section SSH_KNOWN_HOSTS FILE FORMAT. */
module KnownHostsFormat {
  import opened Common
  import opened Wildcard
  import opened KnownHosts
  import Decimal

  // ---- Spelling ----

  /** `bare` is the host with its ASCII capitals made small. */
  predicate IsLowerOf(bare: Name, host: Name) {
    && |bare| == |host|
    && forall i :: 0 <= i < |host| ==>
         bare[i] == if 'A' as int <= host[i] <= 'Z' as int then host[i] - 'A' as int + 'a' as int else host[i]
  }

  function DecimalValue(digits: Name): int {
    if digits == [] then 0 else 10 * DecimalValue(digits[..|digits| - 1]) + digits[|digits| - 1] - '0' as int
  }

  /** The decimal digits of `n`, without a leading zero. */
  predicate IsDecimal(digits: Name, n: nat) {
    && digits != [] && (forall i :: 0 <= i < |digits| ==> '0' as int <= digits[i] <= '9' as int)
    && (|digits| > 1 ==> digits[0] != '0' as int)
    && DecimalValue(digits) == n
  }

  /** How the name of a host stands in a line: bare for port 22, else in brackets with the port behind. */
  function Spelled(bare: Name, port: nat, digits: Name): Name {
    if port == 22 then bare else ['[' as int] + bare + [']' as int, ':' as int] + digits
  }

  lemma {:induction false} PositiveValue(digits: Name)
    requires digits != [] && digits[0] != '0' as int && forall i :: 0 <= i < |digits| ==> '0' as int <= digits[i] <= '9' as int
    ensures DecimalValue(digits) > 0
    decreases |digits|
  {
    var front := digits[..|digits| - 1];
    if front != [] {
      assert front[0] == digits[0];
      PositiveValue(front);
    } else {
      assert DecimalValue(front) == 0;
    }
  }

  /** A number has one decimal spelling without leading zeros. */
  lemma {:induction false} OneSpelling(digits: Name, n: nat)
    requires IsDecimal(digits, n)
    ensures PortDigits(n) == digits
    decreases n
  {
    var k := |digits| - 1;
    var front, last := digits[..k], digits[k] - '0' as int;
    assert DecimalValue(digits) == 10 * DecimalValue(front) + last;
    if k == 0 {
      assert DecimalValue(front) == 0;
      assert PortDigits(n) == [ByteOf(n)];
    } else {
      PositiveValue(front);
      assert n / 10 == DecimalValue(front) && n % 10 == last;
      OneSpelling(front, n / 10);
      assert PortDigits(n) == PortDigits(n / 10) + [ByteOf(n % 10)];
      assert digits == front + [digits[k]];
    }
  }

  lemma NameIsSpelled(host: Name, port: nat, bare: Name, digits: Name)
    requires IsLowerOf(bare, host) && IsDecimal(digits, port)
    ensures RecordName(host, port) == Spelled(bare, port, digits)
  {
    OneSpelling(digits, port);
    assert LowerName(host) == bare;
  }

  // ---- What the lines of the files decide ----

  function SystemLines(system: SystemFile): seq<Entry> {
    if system.Text? then system.entries else []
  }

  /**
   * The verdict from the lines of both files: any malformed line, or a line that
   * revokes this key for this host, refuses; else a line with this key accepts;
   * else any line for the host refuses; else the key is accepted and written.
   */
  lemma VerdictMeaning(mac: Mac, system: SystemFile, file: seq<Entry>, name: Name, key: Key)
    requires !system.Unreadable?
    ensures var lines := SystemLines(system) + file;
            var decision := DecideOn(mac, system, Working, file, name, key);
            if exists e :: e in lines && Faulty(mac, e, name, key) then
              decision.1 == file && (decision.0 == Refused(MalformedFile) || decision.0 == Refused(RevokedKey))
            else if exists e :: e in lines && Vouches(mac, e, name, key) then decision == (Accepted, file)
            else if exists e :: e in lines && Names(mac, e, name) then decision == (Refused(ChangedKey), file)
            else decision == (Accepted, file + [Entry(Patterns([name]), None, key)])
  {
    var above := SystemLines(system);
    var lines := above + file;
    assert forall e :: e in lines <==> e in above || e in file;
    InspectMeaning(mac, above, name, key);
    InspectMeaning(mac, file, name, key);
    InspectRefusal(mac, above, name, key);
    InspectRefusal(mac, file, name, key);
    assert InspectSystem(mac, system, name, key) == Inspect(mac, above, name, key);
  }

  lemma {:induction false} InspectRefusal(mac: Mac, entries: seq<Entry>, name: Name, key: Key)
    ensures var r := Inspect(mac, entries, name, key);
            r.Err? ==> r.error == MalformedFile || r.error == RevokedKey
  {
    if entries != [] {
      InspectRefusal(mac, entries[..|entries| - 1], name, key);
    }
  }

  // ---- Standard lines ----

  lemma OneLine(mac: Mac, line: Name, k: Key, name: Name, key: Key)
    requires Plain(line) && Plain(name)
    ensures var file := [Entry(Patterns([line]), None, k)];
            Decide(mac, Absent, file, name, key)
            == if line != name then (Accepted, file + [Entry(Patterns([name]), None, key)])
               else if key == k then (Accepted, file) else (Refused(ChangedKey), file)
  {
    var e := Entry(Patterns([line]), None, k);
    assert e == NewRecord(line, k);
    RecordMatchesOnlyItsName(mac, line, name, k);
    VerdictMeaning(mac, Absent, [e], name, key);
    assert forall x :: x in SystemLines(Absent) + [e] <==> x == e;
    assert e in SystemLines(Absent) + [e];
  }

  /**
   * A file holding one standard line for a host and port: its key is accepted
   * without a write and every other key is refused as changed. The line says the
   * bare small-letter host for port 22, and `[host]:port` for any other port.
   */
  lemma StandardLineIsFound(mac: Mac, host: Name, port: nat, bare: Name, digits: Name, k: Key, key: Key)
    requires ValidHost(host) && IsLowerOf(bare, host) && IsDecimal(digits, port)
    ensures var file := [Entry(Patterns([if port == 22 then bare else ['[' as int] + bare + [']' as int, ':' as int] + digits]), None, k)];
            DecideOn(mac, Absent, Working, file, RecordName(host, port), key)
            == if key == k then (Accepted, file) else (Refused(ChangedKey), file)
  {
    RecordNameIsPlain(host, port);
    NameIsSpelled(host, port, bare, digits);
    OneLine(mac, Spelled(bare, port, digits), k, RecordName(host, port), key);
  }

  /** The bare line of a host does not speak for its other ports: there a first use is accepted and written in full. */
  lemma BareLineIsForPort22(mac: Mac, host: Name, port: nat, bare: Name, digits: Name, k: Key, key: Key)
    requires ValidHost(host) && IsLowerOf(bare, host) && IsDecimal(digits, port) && port != 22
    ensures var file := [Entry(Patterns([bare]), None, k)];
            DecideOn(mac, Absent, Working, file, RecordName(host, port), key)
            == (Accepted, file + [Entry(Patterns([['[' as int] + bare + [']' as int, ':' as int] + digits]), None, key)])
  {
    RecordNameIsPlain(host, port);
    RecordNameIsPlain(host, 22);
    NameIsSpelled(host, port, bare, digits);
    assert RecordName(host, 22) == bare by {
      assert LowerName(host) == bare;
    }
    assert |Spelled(bare, port, digits)| > |bare|;
    OneLine(mac, bare, k, RecordName(host, port), key);
  }

  // ---- Patterns ----

  predicate SameLetter(p: Byte, b: Byte) {
    || b == p
    || ('A' as int <= p <= 'Z' as int && b - 'a' as int == p - 'A' as int)
    || ('a' as int <= p <= 'z' as int && b - 'A' as int == p - 'a' as int)
  }

  /** `*` fits anything, `?` any one byte, any other byte itself with letters in either case. */
  lemma OneBytePattern(p: Byte, v: Name)
    ensures Match(['*' as int], v)
    ensures Match(['?' as int], v) <==> |v| == 1
    ensures p != '*' as int && p != '?' as int ==>
              (Match([p], v) <==> |v| == 1 && SameLetter(p, v[0]))
  {
    StarFits(v);
    assert [p][1..] == [] && ['?' as int][1..] == [];
    if v != [] {
      assert v == [v[0]] + v[1..];
    }
  }

  lemma {:induction false} StarFits(v: Name)
    ensures Match(['*' as int], v)
    decreases |v|
  {
    assert ['*' as int][1..] == [];
    if v != [] {
      StarFits(v[1..]);
    }
  }

  /** A pattern after `!` takes back what the others admit. */
  lemma NegatedPattern(mac: Mac, positive: Name, negated: Name, host: Name, port: nat)
    requires ValidHost(host) && (positive != [] ==> positive[0] != '!' as int)
    ensures var name := RecordName(host, port);
            Matches(mac, Patterns([positive, ['!' as int] + negated]), name) <==> Match(positive, name) && !Match(negated, name)
  {
    var list := [positive, ['!' as int] + negated];
    HostPatternsMeaning(mac, list, host, port);
    assert list[1][1..] == negated && Negative(list[1]) && !Negative(list[0]);
    assert list[0] == positive;
  }
}
