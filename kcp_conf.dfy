/**
 * KCP transport settings (internal/conf/kcp.go): the KCP record, the
 * role-aware defaulting that fills only zero-valued fields, and the
 * validation that reports every violated rule, in a fixed order.
 */
module KcpConf {

  /** The value held by a KCP record: one component per field of the struct. */
  datatype Settings = Settings(
    mode: string,
    mtu: int,
    rcvwnd: int,
    sndwnd: int,
    dshard: int,
    pshard: int,
    block: string,
    key: string,
    smuxbuf: int,
    streambuf: int)

  /** The zero value of the record, as an empty configuration section decodes. */
  const Zero: Settings := Settings("", 0, 0, 0, 0, 0, "", "", 0, 0)

  const ValidModes: seq<string> := ["normal", "fast", "fast2", "fast3"]

  const ValidBlocks: seq<string> :=
    ["aes", "aes-128", "aes-128-gcm", "aes-192", "salsa20", "blowfish", "twofish",
     "cast5", "3des", "tea", "xtea", "xor", "sm4", "none"]

  const DefaultMode: string := "fast"
  const DefaultMtu: int := 1350
  const DefaultBlock: string := "aes"
  const DefaultSmuxbuf: int := 4 * 1024 * 1024
  const DefaultStreambuf: int := 2 * 1024 * 1024

  /** Receive and send window default: larger on the server side. */
  function WindowDefault(role: string): int
  {
    if role == "server" then 1024 else 512
  }

  // ---------------------------------------------------------------------
  // Defaulting
  // ---------------------------------------------------------------------

  /** Every field that defaulting may write is either unchanged or was zero before. */
  predicate KeepsSetFields(s: Settings, r: Settings)
  {
    && (s.mode != "" ==> r.mode == s.mode)
    && (s.mtu != 0 ==> r.mtu == s.mtu)
    && (s.rcvwnd != 0 ==> r.rcvwnd == s.rcvwnd)
    && (s.sndwnd != 0 ==> r.sndwnd == s.sndwnd)
    && (s.block != "" ==> r.block == s.block)
    && (s.smuxbuf != 0 ==> r.smuxbuf == s.smuxbuf)
    && (s.streambuf != 0 ==> r.streambuf == s.streambuf)
  }

  /** The fields defaulting never looks at: the two shard counts and the key. */
  predicate PassesThrough(s: Settings, r: Settings)
  {
    r.dshard == s.dshard && r.pshard == s.pshard && r.key == s.key
  }

  /** No field that has a default is left at its zero value. */
  predicate Filled(r: Settings)
  {
    && r.mode != "" && r.mtu != 0 && r.rcvwnd != 0 && r.sndwnd != 0
    && r.block != "" && r.smuxbuf != 0 && r.streambuf != 0
  }

  /**
   * The record after defaulting for the given role: each zero-valued field
   * that has a default receives it, everything else is kept.
   */
  function Defaulted(s: Settings, role: string): (r: Settings)
    ensures KeepsSetFields(s, r)
    ensures PassesThrough(s, r)
    ensures Filled(r)
  {
    Settings(
      if s.mode == "" then DefaultMode else s.mode,
      if s.mtu == 0 then DefaultMtu else s.mtu,
      if s.rcvwnd == 0 then WindowDefault(role) else s.rcvwnd,
      if s.sndwnd == 0 then WindowDefault(role) else s.sndwnd,
      s.dshard,
      s.pshard,
      if s.block == "" then DefaultBlock else s.block,
      s.key,
      if s.smuxbuf == 0 then DefaultSmuxbuf else s.smuxbuf,
      if s.streambuf == 0 then DefaultStreambuf else s.streambuf)
  }

  /** Defaulting twice, with any role the second time, changes nothing more. */
  lemma DefaultedIdempotent(s: Settings, role: string, role': string)
    ensures Defaulted(Defaulted(s, role), role') == Defaulted(s, role)
  {
  }

  /** A filled record is a fixed point of defaulting. */
  lemma FilledIsFixedPoint(s: Settings, role: string)
    requires Filled(s)
    ensures Defaulted(s, role) == s
  {
  }

  /**
   * Each unset window depends on the role only: "server" gives 1024, any
   * other string 512.
   */
  lemma WindowsFollowRole(s: Settings, role: string)
    ensures s.rcvwnd == 0 ==> Defaulted(s, role).rcvwnd == if role == "server" then 1024 else 512
    ensures s.sndwnd == 0 ==> Defaulted(s, role).sndwnd == if role == "server" then 1024 else 512
  {
  }

  /** Defaulting the empty record for a role yields the documented defaults. */
  lemma EmptyDefaults(role: string)
    ensures var w := if role == "server" then 1024 else 512;
            Defaulted(Zero, role) == Settings("fast", 1350, w, w, 0, 0, "aes", "", 4194304, 2097152)
  {
  }

  // ---------------------------------------------------------------------
  // Validation
  // ---------------------------------------------------------------------

  /** One kind per validation rule, declared in the order the rules are checked. */
  datatype Violation =
    | InvalidMode
    | InvalidMtu
    | InvalidRcvwnd
    | InvalidSndwnd
    | InvalidBlock
    | InvalidSmuxbuf
    | InvalidStreambuf
    | MissingKey

  /** Position of a rule in the checking order. */
  function Rank(v: Violation): nat
  {
    match v
    case InvalidMode => 0
    case InvalidMtu => 1
    case InvalidRcvwnd => 2
    case InvalidSndwnd => 3
    case InvalidBlock => 4
    case InvalidSmuxbuf => 5
    case InvalidStreambuf => 6
    case MissingKey => 7
  }

  /** Every rule, in checking order. */
  const AllRules: seq<Violation> :=
    [InvalidMode, InvalidMtu, InvalidRcvwnd, InvalidSndwnd,
     InvalidBlock, InvalidSmuxbuf, InvalidStreambuf, MissingKey]

  /** The rule table: the closed range or name set each field must meet. */
  predicate Violates(s: Settings, v: Violation)
  {
    match v
    case InvalidMode => s.mode !in ValidModes
    case InvalidMtu => !(50 <= s.mtu <= 1500)
    case InvalidRcvwnd => !(1 <= s.rcvwnd <= 32768)
    case InvalidSndwnd => !(1 <= s.sndwnd <= 32768)
    case InvalidBlock => s.block !in ValidBlocks
    case InvalidSmuxbuf => !(s.smuxbuf >= 1024)
    case InvalidStreambuf => !(s.streambuf >= 1024)
    case MissingKey => s.block != "none" && s.key == ""
  }

  /** Entries appear in strictly increasing rule order (so each at most once). */
  predicate InRuleOrder(vs: seq<Violation>)
  {
    forall i, j :: 0 <= i < j < |vs| ==> Rank(vs[i]) < Rank(vs[j])
  }

  /** The settings a validated record is guaranteed to have. */
  predicate WellFormed(s: Settings)
  {
    && s.mode in ValidModes
    && 50 <= s.mtu <= 1500
    && 1 <= s.rcvwnd <= 32768
    && 1 <= s.sndwnd <= 32768
    && s.block in ValidBlocks
    && s.smuxbuf >= 1024
    && s.streambuf >= 1024
    && (s.block != "none" ==> s.key != "")
  }

  /** AllRules lists each rule at the position given by its rank. */
  lemma AllRulesRanked()
    ensures |AllRules| == 8
    ensures forall k :: 0 <= k < 8 ==> Rank(AllRules[k]) == k
  {
  }

  /**
   * The list built by the first n checks: each check of a rule runs after the
   * previous ones and, when it fails, appends that rule's kind.
   */
  function Reported(s: Settings, n: nat): seq<Violation>
    requires n <= |AllRules|
  {
    if n == 0 then []
    else
      var v := AllRules[n - 1];
      if Violates(s, v) then Reported(s, n - 1) + [v] else Reported(s, n - 1)
  }

  /**
   * The first n checks list exactly the rules among the first n that s
   * breaks, each once, in checking order.
   */
  lemma {:induction false} ReportedExactly(s: Settings, n: nat)
    requires n <= |AllRules|
    ensures forall x :: x in Reported(s, n) <==> Rank(x) < n && Violates(s, x)
    ensures InRuleOrder(Reported(s, n))
  {
    AllRulesRanked();
    if n > 0 {
      ReportedExactly(s, n - 1);
    }
  }

  /**
   * The violations reported for s: exactly the rules s breaks, each once,
   * in checking order.
   */
  function Violations(s: Settings): seq<Violation>
  {
    Reported(s, |AllRules|)
  }

  /**
   * The violations reported for s are exactly the rules s breaks, each once,
   * in checking order.
   */
  lemma ViolationsExactly(s: Settings)
    ensures forall v :: v in Violations(s) <==> Violates(s, v)
    ensures InRuleOrder(Violations(s))
  {
    ReportedExactly(s, |AllRules|);
  }

  /** The set of rules s breaks. */
  ghost function BrokenRules(s: Settings): set<Violation>
  {
    set v | v in AllRules && Violates(s, v)
  }

  /** A sequence without repeated elements has as many elements as its set. */
  lemma {:induction false} DistinctCard<T>(xs: seq<T>)
    requires forall i, j :: 0 <= i < j < |xs| ==> xs[i] != xs[j]
    ensures |set x | x in xs| == |xs|
  {
    if xs != [] {
      var tail := xs[1..];
      DistinctCard(tail);
      assert (set x | x in xs) == {xs[0]} + (set x | x in tail);
      assert xs[0] !in (set x | x in tail);
    }
  }

  /** A list in rule order has as many entries as distinct kinds. */
  lemma OrderedCard(vs: seq<Violation>)
    requires InRuleOrder(vs)
    ensures |set x | x in vs| == |vs|
  {
    forall i, j | 0 <= i < j < |vs| ensures vs[i] != vs[j] {
      assert Rank(vs[i]) < Rank(vs[j]);
    }
    DistinctCard(vs);
  }

  /** Two nonempty lists in rule order with the same entries start alike. */
  lemma OrderedHeads(a: seq<Violation>, b: seq<Violation>)
    requires InRuleOrder(a) && InRuleOrder(b) && a != [] && b != []
    requires forall x :: x in a <==> x in b
    ensures a[0] == b[0]
  {
    assert a[0] in b && b[0] in a;
    var i :| 0 <= i < |a| && a[i] == b[0];
    var j :| 0 <= j < |b| && b[j] == a[0];
    assert Rank(a[0]) <= Rank(a[i]) == Rank(b[0]);
    assert Rank(b[0]) <= Rank(b[j]) == Rank(a[0]);
  }

  /** Dropping a shared first entry from two lists in rule order keeps their entries equal. */
  lemma OrderedTails(a: seq<Violation>, b: seq<Violation>)
    requires InRuleOrder(a) && InRuleOrder(b) && a != [] && b != [] && a[0] == b[0]
    requires forall x :: x in a <==> x in b
    ensures forall x :: x in a[1..] <==> x in b[1..]
  {
    forall x ensures x in a[1..] ==> x in b[1..] {
      if x in a[1..] {
        var i :| 1 <= i < |a| && a[i] == x;
        assert Rank(a[0]) < Rank(x);
        assert x in a;
        var j :| 0 <= j < |b| && b[j] == x;
        assert j != 0 && b[1..][j - 1] == x;
      }
    }
    forall x ensures x in b[1..] ==> x in a[1..] {
      if x in b[1..] {
        var j :| 1 <= j < |b| && b[j] == x;
        assert Rank(b[0]) < Rank(x);
        assert x in b;
        var i :| 0 <= i < |a| && a[i] == x;
        assert i != 0 && a[1..][i - 1] == x;
      }
    }
  }

  /** Two lists in rule order with the same entries are the same list. */
  lemma {:induction false} OrderedUnique(a: seq<Violation>, b: seq<Violation>)
    requires InRuleOrder(a) && InRuleOrder(b)
    requires forall x :: x in a <==> x in b
    ensures a == b
  {
    OrderedCard(a);
    OrderedCard(b);
    assert (set x | x in a) == (set x | x in b);
    if |a| != 0 {
      OrderedHeads(a, b);
      OrderedTails(a, b);
      OrderedUnique(a[1..], b[1..]);
    }
  }

  /** A record breaking k rules yields exactly k violations. */
  lemma ViolationCount(s: Settings)
    ensures |Violations(s)| == |BrokenRules(s)|
  {
    var r := Violations(s);
    ViolationsExactly(s);
    OrderedCard(r);
    AllRulesRanked();
    forall v ensures v in AllRules {
      assert AllRules[Rank(v)] == v;
    }
    assert (set x | x in r) == BrokenRules(s);
  }

  /** An empty report means exactly that the record is well formed. */
  lemma AcceptedIffWellFormed(s: Settings)
    ensures Violations(s) == [] <==> WellFormed(s)
  {
    var r := Violations(s);
    ViolationsExactly(s);
    if r != [] {
      assert Violates(s, r[0]);
    } else {
      assert !Violates(s, InvalidMode) && !Violates(s, InvalidMtu);
      assert !Violates(s, InvalidRcvwnd) && !Violates(s, InvalidSndwnd);
      assert !Violates(s, InvalidBlock) && !Violates(s, InvalidSmuxbuf);
      assert !Violates(s, InvalidStreambuf) && !Violates(s, MissingKey);
    }
  }

  /** The MTU rule accepts the closed range [50, 1500] and nothing else. */
  lemma MtuBoundaries(s: Settings)
    ensures InvalidMtu !in Violations(s.(mtu := 50))
    ensures InvalidMtu !in Violations(s.(mtu := 1500))
    ensures InvalidMtu in Violations(s.(mtu := 49))
    ensures InvalidMtu in Violations(s.(mtu := 1501))
  {
    ViolationsExactly(s.(mtu := 50));
    ViolationsExactly(s.(mtu := 1500));
    ViolationsExactly(s.(mtu := 49));
    ViolationsExactly(s.(mtu := 1501));
  }

  /** The key rule fires for every non-"none" block name, recognised or not. */
  lemma UnknownBlockWithoutKey(s: Settings)
    requires s.block !in ValidBlocks && s.key == ""
    ensures InvalidBlock in Violations(s) && MissingKey in Violations(s)
  {
    ViolationsExactly(s);
  }

  /** The "none" block needs no key. */
  lemma NoneNeedsNoKey(s: Settings)
    requires s.block == "none"
    ensures MissingKey !in Violations(s) && InvalidBlock !in Violations(s)
  {
    ViolationsExactly(s);
  }

  /** The shard counts take part in no rule: changing them changes no report. */
  lemma ShardsUnchecked(s: Settings, dshard: int, pshard: int)
    ensures Violations(s.(dshard := dshard, pshard := pshard)) == Violations(s)
  {
    var s' := s.(dshard := dshard, pshard := pshard);
    forall x ensures Violates(s', x) == Violates(s, x) {
    }
    ViolationsExactly(s);
    ViolationsExactly(s');
    OrderedUnique(Violations(s'), Violations(s));
  }

  /**
   * Breaking the mode, receive-window, block and key rules together (and no
   * other) reports all four, not only the first.
   */
  lemma FourRulesReported(s: Settings)
    requires s.mode == "turbo" && s.rcvwnd == 0 && s.block == "rot13" && s.key == ""
    requires s.mtu == 1350 && s.sndwnd == 512 && s.smuxbuf == 4194304 && s.streambuf == 2097152
    ensures Violations(s) == [InvalidMode, InvalidRcvwnd, InvalidBlock, MissingKey]
  {
    var expected := [InvalidMode, InvalidRcvwnd, InvalidBlock, MissingKey];
    ViolationsExactly(s);
    forall x ensures x in Violations(s) <==> x in expected {
    }
    OrderedUnique(Violations(s), expected);
  }

  /** Defaulting never introduces a violation a record did not already have. */
  lemma DefaultingAddsNoViolation(s: Settings, role: string, v: Violation)
    requires Violates(Defaulted(s, role), v)
    ensures Violates(s, v)
  {
  }

  // ---------------------------------------------------------------------
  // The record as the source keeps it: an object updated in place
  // ---------------------------------------------------------------------

  class KCP {
    var mode: string
    var mtu: int
    var rcvwnd: int
    var sndwnd: int
    var dshard: int
    var pshard: int
    var block: string
    var key: string
    var smuxbuf: int
    var streambuf: int

    /** The current contents of the record. */
    function Value(): Settings
      reads this
    {
      Settings(mode, mtu, rcvwnd, sndwnd, dshard, pshard, block, key, smuxbuf, streambuf)
    }

    constructor (s: Settings)
      ensures Value() == s
    {
      mode, mtu, rcvwnd, sndwnd := s.mode, s.mtu, s.rcvwnd, s.sndwnd;
      dshard, pshard := s.dshard, s.pshard;
      block, key := s.block, s.key;
      smuxbuf, streambuf := s.smuxbuf, s.streambuf;
    }

    /**
     * Fills every zero-valued field that has a default, in place, one group
     * of fields after another.
     */
    method SetDefaults(role: string)
      modifies this
      ensures Value() == Defaulted(old(Value()), role)
    {
      SetLinkDefaults();
      SetWindowDefaults(role);
      SetBlockDefault();
      SetBufferDefaults();
    }

    /** Mode and MTU. */
    method SetLinkDefaults()
      modifies this
      ensures Value() == old(Value()).(
        mode := if old(mode) == "" then DefaultMode else old(mode),
        mtu := if old(mtu) == 0 then DefaultMtu else old(mtu))
    {
      if mode == "" {
        mode := "fast";
      }
      if mtu == 0 {
        mtu := 1350;
      }
    }

    /** Receive and send windows, by role. */
    method SetWindowDefaults(role: string)
      modifies this
      ensures Value() == old(Value()).(
        rcvwnd := if old(rcvwnd) == 0 then WindowDefault(role) else old(rcvwnd),
        sndwnd := if old(sndwnd) == 0 then WindowDefault(role) else old(sndwnd))
    {
      if rcvwnd == 0 {
        if role == "server" {
          rcvwnd := 1024;
        } else {
          rcvwnd := 512;
        }
      }
      if sndwnd == 0 {
        if role == "server" {
          sndwnd := 1024;
        } else {
          sndwnd := 512;
        }
      }
    }

    /** Cipher block name. */
    method SetBlockDefault()
      modifies this
      ensures Value() == old(Value()).(block := if old(block) == "" then DefaultBlock else old(block))
    {
      if block == "" {
        block := "aes";
      }
    }

    /** Multiplexer and stream buffer sizes. */
    method SetBufferDefaults()
      modifies this
      ensures Value() == old(Value()).(
        smuxbuf := if old(smuxbuf) == 0 then DefaultSmuxbuf else old(smuxbuf),
        streambuf := if old(streambuf) == 0 then DefaultStreambuf else old(streambuf))
    {
      if smuxbuf == 0 {
        smuxbuf := 4 * 1024 * 1024;
      }
      if streambuf == 0 {
        streambuf := 2 * 1024 * 1024;
      }
    }

    /**
     * Checks every rule without changing the record and collects one entry
     * per broken rule, in checking order.
     */
    method Validate() returns (errors: seq<Violation>)
      ensures errors == Violations(Value())
      ensures forall v :: v in errors <==> Violates(Value(), v)
      ensures InRuleOrder(errors)
    {
      errors := CheckLink();
      errors := CheckWindows(errors);
      errors := CheckBlock(errors);
      errors := CheckBuffers(errors);
      errors := CheckKey(errors);
      ViolationsExactly(Value());
    }

    /** The mode and MTU rules. */
    method CheckLink() returns (errors: seq<Violation>)
      ensures errors == Reported(Value(), 2)
    {
      errors := [];
      assert errors == Reported(Value(), 0);
      if mode !in ValidModes {
        errors := errors + [InvalidMode];
      }
      if mtu < 50 || mtu > 1500 {
        errors := errors + [InvalidMtu];
      }
    }

    /** The receive and send window rules. */
    method CheckWindows(prior: seq<Violation>) returns (errors: seq<Violation>)
      requires prior == Reported(Value(), 2)
      ensures errors == Reported(Value(), 4)
    {
      errors := prior;
      if rcvwnd < 1 || rcvwnd > 32768 {
        errors := errors + [InvalidRcvwnd];
      }
      if sndwnd < 1 || sndwnd > 32768 {
        errors := errors + [InvalidSndwnd];
      }
    }

    /** The block-name rule. */
    method CheckBlock(prior: seq<Violation>) returns (errors: seq<Violation>)
      requires prior == Reported(Value(), 4)
      ensures errors == Reported(Value(), 5)
    {
      errors := prior;
      if block !in ValidBlocks {
        errors := errors + [InvalidBlock];
      }
    }

    /** The multiplexer and stream buffer rules. */
    method CheckBuffers(prior: seq<Violation>) returns (errors: seq<Violation>)
      requires prior == Reported(Value(), 5)
      ensures errors == Reported(Value(), 7)
    {
      errors := prior;
      if smuxbuf < 1024 {
        errors := errors + [InvalidSmuxbuf];
      }
      if streambuf < 1024 {
        errors := errors + [InvalidStreambuf];
      }
    }

    /** The key rule: every block other than "none" needs a key. */
    method CheckKey(prior: seq<Violation>) returns (errors: seq<Violation>)
      requires prior == Reported(Value(), 7)
      ensures errors == Reported(Value(), 8)
    {
      errors := prior;
      if block != "none" && |key| == 0 {
        errors := errors + [MissingKey];
      }
    }
  }

  /**
   * A client starting from an empty section: after defaulting, the only
   * violation is the missing key.
   */
  method ClientBootstrap() returns (errors: seq<Violation>)
    ensures errors == [MissingKey]
  {
    var k := new KCP(Zero);
    k.SetDefaults("client");
    ghost var s := Settings("fast", 1350, 512, 512, 0, 0, "aes", "", 4194304, 2097152);
    assert k.Value() == s;
    errors := k.Validate();
    assert ValidModes[1] == s.mode && ValidBlocks[0] == s.block;
    forall x ensures x in errors <==> x in [MissingKey] {
    }
    OrderedUnique(errors, [MissingKey]);
  }
}
