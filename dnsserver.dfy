/**
 * The custom DNS server of internal/dnsserver/dnsserver.go: the parser of its
 * hosts file and the rule by which a query is answered locally. `net.ParseIP`,
 * `dns.NewRR` and the upstream exchange are oracles.
 */
module DnsServer {
  import opened Wrappers
  import opened Text

  /** A parsed IP address, known only through the oracles. */
  datatype Ip = Ip(id: int)

  /** One hosts entry: the host name and the address it maps to. */
  datatype HostEntry = HostEntry(hostname: string, ip: Ip)

  /** The entry one line of the file yields, if any. */
  function EntryOf(line: string, parseIP: string -> Option<Ip>): (r: Option<HostEntry>)
    ensures r.Some? ==> var t := TrimSpace(line);
      t != "" && !HasPrefix(t, "#") && |Fields(t)| >= 2
      && parseIP(Fields(t)[0]) == Some(r.value.ip) && r.value.hostname == Fields(t)[1]
  {
    var t := TrimSpace(line);
    if t == "" || HasPrefix(t, "#") then None
    else
      var fields := Fields(t);
      if |fields| >= 2 && parseIP(fields[0]).Some? then Some(HostEntry(fields[1], parseIP(fields[0]).value))
      else None
  }

  /** A line yields an entry exactly when it is not a comment, has two fields and the first is an address. */
  lemma EntryOfExactly(line: string, parseIP: string -> Option<Ip>)
    ensures var t := TrimSpace(line);
      EntryOf(line, parseIP).Some? <==>
        !HasPrefix(t, "#") && |Fields(t)| >= 2 && parseIP(Fields(t)[0]).Some?
  {
  }

  /** The entries of the lines, in line order. */
  function Entries(lines: seq<string>, parseIP: string -> Option<Ip>): (r: seq<HostEntry>)
    ensures |r| <= |lines|
  {
    if lines == [] then []
    else
      var init := Entries(lines[..|lines| - 1], parseIP);
      match EntryOf(lines[|lines| - 1], parseIP)
      case Some(e) => init + [e]
      case None => init
  }

  /** Parsing a file in two parts gives the entries of the first part, then those of the second. */
  lemma {:induction false} EntriesConcat(a: seq<string>, b: seq<string>, parseIP: string -> Option<Ip>)
    ensures Entries(a + b, parseIP) == Entries(a, parseIP) + Entries(b, parseIP)
    decreases |b|
  {
    if b != [] {
      var init := b[..|b| - 1];
      assert (a + b)[..|a + b| - 1] == a + init;
      assert (a + b)[|a + b| - 1] == b[|b| - 1];
      EntriesConcat(a, init, parseIP);
    } else {
      assert a + b == a;
    }
  }

  /** An entry is in the result exactly when some line yields it. */
  lemma {:induction false} EntriesMembers(lines: seq<string>, parseIP: string -> Option<Ip>, e: HostEntry)
    ensures e in Entries(lines, parseIP) <==> exists k :: 0 <= k < |lines| && EntryOf(lines[k], parseIP) == Some(e)
    decreases |lines|
  {
    if lines != [] {
      var init := lines[..|lines| - 1];
      var last := EntryOf(lines[|lines| - 1], parseIP);
      EntriesMembers(init, parseIP, e);
      assert e in Entries(lines, parseIP) <==> e in Entries(init, parseIP) || last == Some(e);
      if last == Some(e) {
        assert EntryOf(lines[|lines| - 1], parseIP) == Some(e);
      }
      if k :| 0 <= k < |lines| && EntryOf(lines[k], parseIP) == Some(e) {
        if k < |lines| - 1 {
          assert init[k] == lines[k];
        }
      }
      if k :| 0 <= k < |init| && EntryOf(init[k], parseIP) == Some(e) {
        assert lines[k] == init[k];
      }
    }
  }

  /** Blank lines and comments contribute nothing. */
  lemma BlankAndCommentLinesSkipped(lines: seq<string>, line: string, parseIP: string -> Option<Ip>)
    requires TrimSpace(line) == "" || HasPrefix(TrimSpace(line), "#")
    ensures Entries(lines + [line], parseIP) == Entries(lines, parseIP)
  {
    assert (lines + [line])[..|lines|] == lines;
  }

  /** One more line adds its entry, if it yields one. */
  lemma EntriesStep(lines: seq<string>, i: int, parseIP: string -> Option<Ip>)
    requires 0 <= i < |lines|
    ensures EntryOf(lines[i], parseIP).None? ==> Entries(lines[..i + 1], parseIP) == Entries(lines[..i], parseIP)
    ensures EntryOf(lines[i], parseIP).Some? ==>
      Entries(lines[..i + 1], parseIP) == Entries(lines[..i], parseIP) + [EntryOf(lines[i], parseIP).value]
  {
    assert lines[..i + 1][..i] == lines[..i];
  }

  /** `loadHostsFile` over the outcome of reading the file. */
  method LoadHostsFile(read: Result<string>, parseIP: string -> Option<Ip>) returns (r: Result<seq<HostEntry>>)
    ensures read.Err? ==> r == Err("failed to read hosts file: " + read.msg)
    ensures read.Ok? ==> r == Ok(Entries(Split(read.value, '\n'), parseIP))
  {
    if read.Err? {
      return Err("failed to read hosts file: " + read.msg);
    }
    var entries := ParseLines(Split(read.value, '\n'), parseIP);
    r := Ok(entries);
  }

  /** The loop of `loadHostsFile` over the lines of the file. */
  method ParseLines(lines: seq<string>, parseIP: string -> Option<Ip>) returns (entries: seq<HostEntry>)
    ensures entries == Entries(lines, parseIP)
  {
    entries := [];
    var i := 0;
    while i < |lines|
      invariant 0 <= i <= |lines|
      invariant entries == Entries(lines[..i], parseIP)
    {
      EntriesStep(lines, i, parseIP);
      var line := TrimSpace(lines[i]);
      if line != "" && !HasPrefix(line, "#") {
        var fields := Fields(line);
        if |fields| >= 2 {
          var ip := parseIP(fields[0]);
          if ip.Some? {
            entries := entries + [HostEntry(fields[1], ip.value)];
          }
        }
      }
      i := i + 1;
    }
    assert lines[..|lines|] == lines;
  }

  /** `dns.TypeA`. */
  const TypeA: int := 1

  datatype Question = Question(name: string, qtype: int)

  /** A resource record as `dns.NewRR` builds it from its text. */
  datatype RR = RR(text: string)

  /** The parts of a `dns.Msg` the handler reads and writes. */
  datatype Msg = Msg(id: int, questions: seq<Question>, answers: seq<RR>, response: bool, recursionAvailable: bool)

  /**
   * `m.SetReply(r)` followed by `m.RecursionAvailable = true`: the reply carries the
   * request's id and only its first question, as miekg/dns's `SetReply` does.
   */
  function ReplyTo(r: Msg): Msg {
    Msg(r.id, if r.questions == [] then [] else [r.questions[0]], [], true, true)
  }

  /** A type-A question for a `.go.` name, which the handler answers from the hosts entries. */
  predicate IsLocal(q: Question) {
    HasSuffix(q.name, ".go.") && q.qtype == TypeA
  }

  /** The index of the first entry for `name`, or -1. */
  function FirstMatch(entries: seq<HostEntry>, name: string): (i: int)
    ensures -1 <= i < |entries|
    ensures i >= 0 ==> entries[i].hostname == name
    ensures forall k :: 0 <= k < |entries| && (i < 0 || k < i) ==> entries[k].hostname != name
    decreases |entries|
  {
    if entries == [] then -1
    else if entries[0].hostname == name then 0
    else
      var i := FirstMatch(entries[1..], name);
      if i < 0 then -1 else i + 1
  }

  /** The text handed to `dns.NewRR` for a local answer. */
  function RecordText(name: string, ip: string): string {
    name + " A " + ip
  }

  /**
   * The reply being built after the first `n` questions, or `None` once the handler
   * has returned without writing: a record that cannot be built, or a failed upstream
   * exchange (`upstream` is the outcome of forwarding the request).
   */
  function ReplyAfter(
    r: Msg, n: nat, entries: seq<HostEntry>, ipString: Ip -> string,
    newRR: string -> Option<RR>, upstream: Option<Msg>): Option<Msg>
    requires n <= |r.questions|
  {
    if n == 0 then Some(ReplyTo(r))
    else
      var prev := ReplyAfter(r, n - 1, entries, ipString, newRR, upstream);
      var q := r.questions[n - 1];
      if prev.None? then None
      else if IsLocal(q) then
        var i := FirstMatch(entries, q.name);
        if i < 0 then prev
        else match newRR(RecordText(q.name, ipString(entries[i].ip)))
          case None => None
          case Some(rr) => Some(prev.value.(answers := prev.value.answers + [rr]))
      else upstream
  }

  /** Once the handler has returned, later questions change nothing. */
  lemma {:induction false} ReplyAfterStaysNone(
    r: Msg, n: nat, m: nat, entries: seq<HostEntry>, ipString: Ip -> string,
    newRR: string -> Option<RR>, upstream: Option<Msg>)
    requires n <= m <= |r.questions|
    requires ReplyAfter(r, n, entries, ipString, newRR, upstream).None?
    ensures ReplyAfter(r, m, entries, ipString, newRR, upstream).None?
    decreases m - n
  {
    if n < m {
      ReplyAfterStaysNone(r, n + 1, m, entries, ipString, newRR, upstream);
    }
  }

  /** The number of local questions among the first `n`. */
  function LocalCount(qs: seq<Question>, n: nat): nat
    requires n <= |qs|
  {
    if n == 0 then 0 else LocalCount(qs, n - 1) + (if IsLocal(qs[n - 1]) then 1 else 0)
  }

  /** When every question is local, each one adds at most one answer to the reply. */
  lemma {:induction false} AtMostOneAnswerEach(
    r: Msg, n: nat, entries: seq<HostEntry>, ipString: Ip -> string,
    newRR: string -> Option<RR>, upstream: Option<Msg>)
    requires n <= |r.questions|
    requires forall k :: 0 <= k < n ==> IsLocal(r.questions[k])
    ensures var m := ReplyAfter(r, n, entries, ipString, newRR, upstream);
      m.Some? ==>
        m.value.id == r.id && m.value.questions == (if r.questions == [] then [] else [r.questions[0]])
        && |m.value.answers| <= LocalCount(r.questions, n)
    decreases n
  {
    if n > 0 {
      AtMostOneAnswerEach(r, n - 1, entries, ipString, newRR, upstream);
    }
  }

  /** A request with one local question: answered from the first matching entry, or not at all. */
  lemma SingleLocalQuestion(
    r: Msg, entries: seq<HostEntry>, ipString: Ip -> string,
    newRR: string -> Option<RR>, upstream: Option<Msg>)
    requires |r.questions| == 1 && IsLocal(r.questions[0])
    ensures var m := ReplyAfter(r, 1, entries, ipString, newRR, upstream);
      var name := r.questions[0].name;
      var i := FirstMatch(entries, name);
      (i < 0 ==> m == Some(ReplyTo(r)))
      && (i >= 0 ==> m == (match newRR(RecordText(name, ipString(entries[i].ip)))
                           case None => None
                           case Some(rr) => Some(ReplyTo(r).(answers := [rr]))))
  {
    assert ReplyAfter(r, 0, entries, ipString, newRR, upstream) == Some(ReplyTo(r));
    forall rr: RR ensures ReplyTo(r).answers + [rr] == [rr] {
    }
  }

  /** When no entry names any of the (local) questions, the reply carries no answer. */
  lemma {:induction false} NoMatchNoAnswer(
    r: Msg, n: nat, entries: seq<HostEntry>, ipString: Ip -> string,
    newRR: string -> Option<RR>, upstream: Option<Msg>)
    requires n <= |r.questions|
    requires forall k :: 0 <= k < n ==> IsLocal(r.questions[k])
    requires forall k, e :: 0 <= k < n && 0 <= e < |entries| ==> entries[e].hostname != r.questions[k].name
    ensures ReplyAfter(r, n, entries, ipString, newRR, upstream) == Some(ReplyTo(r))
    decreases n
  {
    if n > 0 {
      NoMatchNoAnswer(r, n - 1, entries, ipString, newRR, upstream);
    }
  }

  /**
   * `handleDNSRequest`: the reply it writes, or `None` when it returns without
   * writing one.
   */
  method HandleDNSRequest(
    r: Msg, entries: seq<HostEntry>, ipString: Ip -> string,
    newRR: string -> Option<RR>, upstream: Option<Msg>) returns (written: Option<Msg>)
    ensures written == ReplyAfter(r, |r.questions|, entries, ipString, newRR, upstream)
  {
    var m := ReplyTo(r);
    var i := 0;
    while i < |r.questions|
      invariant 0 <= i <= |r.questions|
      invariant ReplyAfter(r, i, entries, ipString, newRR, upstream) == Some(m)
    {
      var q := r.questions[i];
      if HasSuffix(q.name, ".go.") && q.qtype == TypeA {
        var j := 0;
        while j < |entries|
          invariant 0 <= j <= |entries|
          invariant forall k :: 0 <= k < j ==> entries[k].hostname != q.name
        {
          if entries[j].hostname == q.name {
            var rr := newRR(RecordText(q.name, ipString(entries[j].ip)));
            if rr.None? {
              ReplyAfterStaysNone(r, i + 1, |r.questions|, entries, ipString, newRR, upstream);
              return None;
            }
            m := m.(answers := m.answers + [rr.value]);
            break;
          }
          j := j + 1;
        }
      } else {
        if upstream.None? {
          ReplyAfterStaysNone(r, i + 1, |r.questions|, entries, ipString, newRR, upstream);
          return None;
        }
        m := upstream.value;
      }
      i := i + 1;
    }
    written := Some(m);
  }
}
