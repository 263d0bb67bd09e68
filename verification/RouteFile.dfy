/**
  The route file of the fast emulation: the line that one path is printed as, and how that line is
  read back as the queues of the path.

  Links are point to point. The two ends of a link carry the numbers of the interfaces there.
 */
module RouteFile {
  import opened Basics

  datatype Link = Link(first: nat, firstIf: nat, second: nat, secondIf: nat)

  datatype Queue = Queue(tx: nat, txIf: nat, rx: nat, rxIf: nat)

  // ---------------------------------------------------------------------------------------------
  // Numbers and tokens
  // ---------------------------------------------------------------------------------------------

  function Digit(n: nat): char
    requires n < 10
  {
    '0' + n as char
  }

  predicate IsDigit(c: char) {
    '0' <= c <= '9'
  }

  function DigitValue(c: char): nat
    requires IsDigit(c)
  {
    c as int - '0' as int
  }

  function Decimal(n: nat): string {
    if n < 10 then [Digit(n)] else Decimal(n / 10) + [Digit(n % 10)]
  }

  /** The number that a string of digits stands for, up to the first other character. */
  function Digits(s: string, value: nat): nat {
    if s == [] || !IsDigit(s[0]) then value else Digits(s[1..], 10 * value + DigitValue(s[0]))
  }

  /** How many characters come before the first `c`. */
  function Run(s: string, c: char): (n: nat)
    ensures n <= |s| && c !in s[..n] && (n < |s| ==> s[n] == c)
  {
    if s == [] || s[0] == c then 0 else Run(s[1..], c) + 1
  }

  /** The pieces between separators, none of them empty. */
  function Tokens(s: string, c: char): seq<string>
    decreases |s|
  {
    if s == [] then []
    else if s[0] == c then Tokens(s[1..], c)
    else
      var n := Run(s, c);
      [s[..n]] + Tokens(s[n..], c)
  }

  /** Strings, each followed by a separator. */
  function Joined(parts: seq<string>, c: char): string {
    if parts == [] then "" else parts[0] + [c] + Joined(parts[1..], c)
  }

  lemma {:induction false} RunOf(a: string, c: char, rest: string)
    requires c !in a
    ensures Run(a + [c] + rest, c) == |a| && Run(a, c) == |a|
  {
    if a == [] {
      assert (a + [c] + rest)[0] == c;
    } else {
      assert (a + [c] + rest)[1..] == a[1..] + [c] + rest;
      RunOf(a[1..], c, rest);
    }
  }

  lemma TokensFirst(a: string, c: char, rest: string)
    requires c !in a && a != []
    ensures Tokens(a + [c] + rest, c) == [a] + Tokens(rest, c)
    ensures Tokens(a, c) == [a]
  {
    var s := a + [c] + rest;
    RunOf(a, c, rest);
    assert s[0] == a[0] && s[..|a|] == a;
    assert s[|a|..] == [c] + rest && s[|a|..][1..] == rest;
    assert a[..|a|] == a && a[|a|..] == [];
  }

  /** Splitting what was joined gives the parts back. */
  lemma {:induction false} TokensOfJoined(parts: seq<string>, c: char)
    requires forall i :: 0 <= i < |parts| ==> parts[i] != [] && c !in parts[i]
    ensures Tokens(Joined(parts, c), c) == parts
  {
    if parts != [] {
      TokensFirst(parts[0], c, Joined(parts[1..], c));
      TokensOfJoined(parts[1..], c);
    }
  }

  lemma {:induction false} DecimalIsDigits(n: nat)
    ensures Decimal(n) != [] && forall i :: 0 <= i < |Decimal(n)| ==> IsDigit(Decimal(n)[i])
  {
    if n >= 10 {
      DecimalIsDigits(n / 10);
    }
  }

  lemma {:induction false} DigitsAppend(s: string, d: char, value: nat)
    requires IsDigit(d) && forall i :: 0 <= i < |s| ==> IsDigit(s[i])
    ensures Digits(s + [d], value) == 10 * Digits(s, value) + DigitValue(d)
  {
    if s == [] {
      assert (s + [d])[0] == d && (s + [d])[1..] == [];
    } else {
      assert (s + [d])[0] == s[0] && (s + [d])[1..] == s[1..] + [d];
      DigitsAppend(s[1..], d, 10 * value + DigitValue(s[0]));
    }
  }

  /** Reading a number that was printed gives the number back. */
  lemma {:induction false} DigitsOfDecimal(n: nat)
    ensures Digits(Decimal(n), 0) == n
  {
    if n < 10 {
      assert Decimal(n)[1..] == [];
    } else {
      DigitsOfDecimal(n / 10);
      DecimalIsDigits(n / 10);
      DigitsAppend(Decimal(n / 10), Digit(n % 10), 0);
    }
  }

  // ---------------------------------------------------------------------------------------------
  // Links and queues
  // ---------------------------------------------------------------------------------------------

  predicate Joins(l: Link, d: nat, r: nat) {
    (d == l.first && r == l.second) || (r == l.first && d == l.second)
  }

  /** The first link between two devices, or the number of links. */
  function LinkAt(links: seq<Link>, d: nat, r: nat): (i: nat)
    ensures i <= |links|
    ensures i < |links| ==> Joins(links[i], d, r)
    ensures forall j :: 0 <= j < i ==> !Joins(links[j], d, r)
  {
    if links == [] || Joins(links[0], d, r) then 0 else LinkAt(links[1..], d, r) + 1
  }

  /** The interface of `d` on its link to `r`; 0 without a link. */
  function Interface(links: seq<Link>, d: nat, r: nat): nat {
    var i := LinkAt(links, d, r);
    if i == |links| then 0
    else if d == links[i].first && r == links[i].second then links[i].firstIf
    else links[i].secondIf
  }

  /** Each link has a queue in each direction. */
  function Queues(links: seq<Link>): seq<Queue> {
    if links == [] then []
    else
      var n := |links| - 1;
      var l := links[n];
      Queues(links[..n])
      + [Queue(l.first, l.firstIf, l.second, l.secondIf), Queue(l.second, l.secondIf, l.first, l.firstIf)]
  }

  function QueueAt(queues: seq<Queue>, q: Queue): (i: nat)
    ensures i <= |queues|
    ensures i < |queues| ==> queues[i] == q
    ensures forall j :: 0 <= j < i ==> queues[j] != q
  {
    if queues == [] || queues[0] == q then 0 else QueueAt(queues[1..], q) + 1
  }

  /** Which queue carries what `d` sends to `r`. */
  function QueueOf(links: seq<Link>, d: nat, r: nat): nat {
    var i := LinkAt(links, d, r);
    if i < |links| && d == links[i].first && r == links[i].second then 2 * i else 2 * i + 1
  }

  lemma {:induction false} QueuesAre(links: seq<Link>)
    ensures |Queues(links)| == 2 * |links|
    ensures forall i :: 0 <= i < |links| ==>
      && Queues(links)[2 * i] == Queue(links[i].first, links[i].firstIf, links[i].second, links[i].secondIf)
      && Queues(links)[2 * i + 1] == Queue(links[i].second, links[i].secondIf, links[i].first, links[i].firstIf)
  {
    if links != [] {
      var n := |links| - 1;
      QueuesAre(links[..n]);
      forall i | 0 <= i < n
        ensures Queues(links)[2 * i] == Queues(links[..n])[2 * i] && Queues(links)[2 * i + 1] == Queues(links[..n])[2 * i + 1]
        ensures links[..n][i] == links[i]
      {
      }
    }
  }

  lemma QueueHasLink(links: seq<Link>, k: nat)
    requires k < |Queues(links)|
    ensures k / 2 < |links| && Joins(links[k / 2], Queues(links)[k].tx, Queues(links)[k].rx)
    ensures k % 2 == 0 ==> Queues(links)[k].tx == links[k / 2].first && Queues(links)[k].rx == links[k / 2].second
  {
    QueuesAre(links);
    var i := k / 2;
    assert k == 2 * i || k == 2 * i + 1;
  }

  lemma QueueOfHolds(links: seq<Link>, d: nat, r: nat)
    requires d != r && LinkAt(links, d, r) < |links|
    ensures QueueOf(links, d, r) < |Queues(links)|
    ensures Queues(links)[QueueOf(links, d, r)] == Queue(d, Interface(links, d, r), r, Interface(links, r, d))
  {
    QueuesAre(links);
    SameLink(links, d, r);
    hide Queues, LinkAt;
  }

  lemma EarlierIsOther(links: seq<Link>, d: nat, r: nat, k: nat)
    requires d != r && LinkAt(links, d, r) < |links| && k < QueueOf(links, d, r) && k < |Queues(links)|
    ensures !(Queues(links)[k].tx == d && Queues(links)[k].rx == r)
  {
    hide Queues;
    QueueHasLink(links, k);
  }

  /** The interfaces that a pair of devices has on its link find the queue of that link and direction. */
  lemma QueueFound(links: seq<Link>, d: nat, r: nat)
    requires d != r && LinkAt(links, d, r) < |links|
    ensures QueueOf(links, d, r) < |Queues(links)|
    ensures QueueAt(Queues(links), Queue(d, Interface(links, d, r), r, Interface(links, r, d))) == QueueOf(links, d, r)
  {
    hide Queues, LinkAt, QueueAt, Interface, QueueOf;
    QueueOfHolds(links, d, r);
    var k := QueueAt(Queues(links), Queue(d, Interface(links, d, r), r, Interface(links, r, d)));
    if k < QueueOf(links, d, r) {
      EarlierIsOther(links, d, r, k);
    }
  }

  lemma SameLink(links: seq<Link>, d: nat, r: nat)
    ensures LinkAt(links, r, d) == LinkAt(links, d, r)
  {
  }

  // ---------------------------------------------------------------------------------------------
  // The printed line
  // ---------------------------------------------------------------------------------------------

  function Atom(links: seq<Link>, d: nat, r: nat): string {
    Decimal(d) + ":" + Decimal(Interface(links, d, r))
  }

  /** The atoms of a path: each link gives the sending and the receiving end. */
  function Atoms(links: seq<Link>, p: seq<nat>): seq<string> {
    if |p| < 2 then [] else [Atom(links, p[0], p[1]), Atom(links, p[1], p[0])] + Atoms(links, p[1..])
  }

  function Printed(links: seq<Link>, p: seq<nat>): string {
    Joined(Atoms(links, p), ';')
  }

  lemma TwoLinks()
    ensures var links := [Link(1, 1, 2, 1), Link(13, 3, 2, 2)];
      && Atom(links, 1, 2) == "1:1" && Atom(links, 2, 1) == "2:1"
      && Atom(links, 2, 13) == "2:2" && Atom(links, 13, 2) == "13:3"
      && QueueOf(links, 1, 2) == 0 && QueueOf(links, 2, 13) == 3
  {
    var links := [Link(1, 1, 2, 1), Link(13, 3, 2, 2)];
    assert links[1..] == [Link(13, 3, 2, 2)] && LinkAt(links[1..], 2, 13) == LinkAt(links[1..], 13, 2) == 0;
    assert Decimal(13) == "13" && Decimal(1) == "1" && Decimal(2) == "2" && Decimal(3) == "3";
  }

  lemma TwoAtoms(links: seq<Link>, a: nat, b: nat, c: nat)
    ensures Atoms(links, [a, b, c]) == [Atom(links, a, b), Atom(links, b, a), Atom(links, b, c), Atom(links, c, b)]
    ensures QueuesOf(links, [a, b, c]) == [QueueOf(links, a, b), QueueOf(links, b, c)]
  {
    hide Atom, QueueOf;
    var p := [a, b, c];
    assert p[1..] == [b, c] && p[1..][1..] == [c] && Atoms(links, [c]) == [];
    assert p[..2] == [a, b] && p[..2][..1] == [a] && QueuesOf(links, [a]) == [];
  }

  lemma LastTwoJoined()
    ensures Joined(["2:2", "13:3"], ';') == "2:2;13:3;"
  {
    var parts := ["2:2", "13:3"];
    assert parts[1..] == ["13:3"] && Joined(parts[1..], ';') == "13:3;";
  }

  lemma FourJoined()
    ensures Joined(["1:1", "2:1", "2:2", "13:3"], ';') == "1:1;2:1;2:2;13:3;"
  {
    var parts := ["1:1", "2:1", "2:2", "13:3"];
    LastTwoJoined();
    assert parts[1..][1..] == ["2:2", "13:3"] && Joined(parts[1..], ';') == "2:1;2:2;13:3;";
  }

  /** The line of a route over two links: interface 1 of device 1 to 1 of 2, then 2 of 2 to 3 of 13. */
  lemma KnownLine()
    ensures var links := [Link(1, 1, 2, 1), Link(13, 3, 2, 2)];
      && Printed(links, [1, 2, 13]) == "1:1;2:1;2:2;13:3;"
      && QueuesOf(links, [1, 2, 13]) == [0, 3]
  {
    hide Atom, Atoms, QueueOf, QueuesOf, Joined;
    TwoLinks();
    TwoAtoms([Link(1, 1, 2, 1), Link(13, 3, 2, 2)], 1, 2, 13);
    FourJoined();
  }

  lemma AtomTokens(links: seq<Link>, d: nat, r: nat)
    ensures Tokens(Atom(links, d, r), ':') == [Decimal(d), Decimal(Interface(links, d, r))]
    ensures Atom(links, d, r) != [] && ';' !in Atom(links, d, r)
  {
    var i := Interface(links, d, r);
    DecimalIsDigits(d);
    DecimalIsDigits(i);
    assert ':' !in Decimal(d) && ':' !in Decimal(i);
    TokensFirst(Decimal(d), ':', Decimal(i));
    TokensFirst(Decimal(i), ':', "");
  }

  // ---------------------------------------------------------------------------------------------
  // Reading the line
  // ---------------------------------------------------------------------------------------------

  function Device(hop: string): nat
    requires |Tokens(hop, ':')| >= 2
  {
    Digits(Tokens(hop, ':')[0], 0)
  }

  function InterfaceOf(hop: string): nat
    requires |Tokens(hop, ':')| >= 2
  {
    Digits(Tokens(hop, ':')[1], 0)
  }

  predicate Hops(hops: seq<string>) {
    forall i :: 0 <= i < |hops| ==> |Tokens(hops[i], ':')| >= 2
  }

  /**
    The queue numbers along the hops: a device that stands twice in a row is passed through; `None` if
    a link is missing.
   */
  function PathOf(queues: seq<Queue>, hops: seq<string>): Option<seq<nat>>
    requires Hops(hops)
  {
    if |hops| < 2 then Some([])
    else
      var n := |hops| - 1;
      var before := PathOf(queues, hops[..n]);
      var a, b := hops[n - 1], hops[n];
      if before == None || Device(a) == Device(b) then before
      else
        var i := QueueAt(queues, Queue(Device(a), InterfaceOf(a), Device(b), InterfaceOf(b)));
        if i < |queues| then Some(before.value + [i]) else None
  }

  /** Two devices that follow one another on the line have no queue between the interfaces it names. */
  ghost predicate Missing(queues: seq<Queue>, hops: seq<string>, i: nat)
    requires Hops(hops) && 0 < i < |hops|
  {
    var a, b := hops[i - 1], hops[i];
    Device(a) != Device(b) && Queue(Device(a), InterfaceOf(a), Device(b), InterfaceOf(b)) !in queues
  }

  /** A line is refused if and only if a queue that it needs is missing. */
  lemma {:induction false} RefusedExactly(queues: seq<Queue>, hops: seq<string>)
    requires Hops(hops)
    ensures PathOf(queues, hops) == None <==> exists i: nat :: 0 < i < |hops| && Missing(queues, hops, i)
  {
    hide Device, InterfaceOf, QueueAt;
    if |hops| >= 2 {
      var n := |hops| - 1;
      var front := hops[..n];
      RefusedExactly(queues, front);
      forall i: nat | 0 < i < n
        ensures Missing(queues, front, i) == Missing(queues, hops, i)
      {
      }
      var q := Queue(Device(hops[n - 1]), InterfaceOf(hops[n - 1]), Device(hops[n]), InterfaceOf(hops[n]));
      assert q in queues <==> QueueAt(queues, q) < |queues|;
      assert Missing(queues, hops, n) <==> Device(hops[n - 1]) != Device(hops[n]) && q !in queues;
    }
  }

  /** The queues of the links of a path. */
  function QueuesOf(links: seq<Link>, p: seq<nat>): seq<nat> {
    if |p| < 2 then [] else QueuesOf(links, p[..|p| - 1]) + [QueueOf(links, p[|p| - 2], p[|p| - 1])]
  }

  ghost predicate Path(links: seq<Link>, p: seq<nat>) {
    forall i :: 0 <= i < |p| - 1 ==> p[i] != p[i + 1] && LinkAt(links, p[i], p[i + 1]) < |links|
  }

  lemma {:induction false} AtomsLast(links: seq<Link>, p: seq<nat>)
    requires |p| >= 2
    ensures Atoms(links, p) ==
      Atoms(links, p[..|p| - 1]) + [Atom(links, p[|p| - 2], p[|p| - 1]), Atom(links, p[|p| - 1], p[|p| - 2])]
  {
    hide Atom;
    if |p| == 2 {
      assert Atoms(links, p[..1]) == [] && Atoms(links, p[1..]) == [];
    } else {
      AtomsLast(links, p[1..]);
      assert p[1..][..|p| - 2] == p[..|p| - 1][1..];
    }
  }

  lemma {:induction false} AtomsAreHops(links: seq<Link>, p: seq<nat>)
    ensures Hops(Atoms(links, p))
    ensures forall i :: 0 <= i < |Atoms(links, p)| ==> Atoms(links, p)[i] != [] && ';' !in Atoms(links, p)[i]
    ensures |p| >= 2 ==> |Atoms(links, p)| >= 2
    ensures |p| >= 2 ==> Atoms(links, p)[|Atoms(links, p)| - 1] == Atom(links, p[|p| - 1], p[|p| - 2])
  {
    if |p| >= 2 {
      AtomsAreHops(links, p[..|p| - 1]);
      AtomsLast(links, p);
      hide Atoms, Atom, Tokens;
      AtomTokens(links, p[|p| - 2], p[|p| - 1]);
      AtomTokens(links, p[|p| - 1], p[|p| - 2]);
    }
  }

  lemma AtomValues(links: seq<Link>, d: nat, r: nat)
    ensures |Tokens(Atom(links, d, r), ':')| == 2
    ensures Device(Atom(links, d, r)) == d && InterfaceOf(Atom(links, d, r)) == Interface(links, d, r)
  {
    AtomTokens(links, d, r);
    DigitsOfDecimal(d);
    DigitsOfDecimal(Interface(links, d, r));
  }

  lemma {:induction false} PathOfAtoms(links: seq<Link>, p: seq<nat>)
    requires Path(links, p)
    ensures Hops(Atoms(links, p)) && PathOf(Queues(links), Atoms(links, p)) == Some(QueuesOf(links, p))
  {
    AtomsAreHops(links, p);
    if |p| >= 2 {
      var front := p[..|p| - 1];
      PathOfAtoms(links, front);
      AtomsAreHops(links, front);
      LastLink(links, p);
    }
  }

  /** The last link of a path adds its queue and nothing else. */
  lemma LastLink(links: seq<Link>, p: seq<nat>)
    requires |p| >= 2 && Path(links, p) && Hops(Atoms(links, p)) && Hops(Atoms(links, p[..|p| - 1]))
    requires PathOf(Queues(links), Atoms(links, p[..|p| - 1])) == Some(QueuesOf(links, p[..|p| - 1]))
    ensures PathOf(Queues(links), Atoms(links, p)) == Some(QueuesOf(links, p))
  {
    hide Atom, Atoms, Device, InterfaceOf, Queues, QueueOf, QueueAt, Interface, Tokens, LinkAt, PathOf;
    var front := p[..|p| - 1];
    var d, r := p[|p| - 2], p[|p| - 1];
    var a, b := Atom(links, d, r), Atom(links, r, d);
    var hops := Atoms(links, front);
    AtomsLast(links, p);
    AtomValues(links, d, r);
    AtomValues(links, r, d);
    QueueFound(links, d, r);
    FrontEnds(links, front);
    PassThrough(Queues(links), hops, a);
    NextQueue(Queues(links), hops + [a], b, QueueOf(links, d, r));
    assert hops + [a] + [b] == Atoms(links, p);
  }

  /** The last atom of a path stands for its last device. */
  lemma FrontEnds(links: seq<Link>, p: seq<nat>)
    requires p != [] && Hops(Atoms(links, p))
    ensures var hops := Atoms(links, p); hops != [] ==> Device(hops[|hops| - 1]) == p[|p| - 1]
  {
    if |p| >= 2 {
      AtomsAreHops(links, p);
      AtomValues(links, p[|p| - 1], p[|p| - 2]);
    }
  }

  /** A second atom of the same device adds no queue. */
  lemma PassThrough(queues: seq<Queue>, hops: seq<string>, a: string)
    requires Hops(hops) && |Tokens(a, ':')| >= 2
    requires hops != [] ==> Device(hops[|hops| - 1]) == Device(a)
    ensures Hops(hops + [a]) && PathOf(queues, hops + [a]) == PathOf(queues, hops)
  {
    assert (hops + [a])[..|hops|] == hops;
  }

  lemma NextQueue(queues: seq<Queue>, hops: seq<string>, b: string, i: nat)
    requires Hops(hops) && hops != [] && |Tokens(b, ':')| >= 2 && Device(hops[|hops| - 1]) != Device(b)
    requires var a := hops[|hops| - 1];
      i == QueueAt(queues, Queue(Device(a), InterfaceOf(a), Device(b), InterfaceOf(b))) < |queues|
    requires PathOf(queues, hops).Some?
    ensures Hops(hops + [b]) && PathOf(queues, hops + [b]) == Some(PathOf(queues, hops).value + [i])
  {
    assert (hops + [b])[..|hops|] == hops;
  }

  /** What was printed for a path is read back as the queues of its links, in order. */
  lemma RoundTrip(links: seq<Link>, p: seq<nat>)
    requires Path(links, p)
    ensures var hops := Tokens(Printed(links, p), ';');
      Hops(hops) && PathOf(Queues(links), hops) == Some(QueuesOf(links, p))
  {
    AtomsAreHops(links, p);
    TokensOfJoined(Atoms(links, p), ';');
    PathOfAtoms(links, p);
  }

  // ---------------------------------------------------------------------------------------------
  // The loops
  // ---------------------------------------------------------------------------------------------

  method AddInterface(links: seq<Link>, d: nat, r: nat) returns (interface: nat)
    ensures interface == Interface(links, d, r)
  {
    var i := 0;
    while i < |links|
      invariant i <= |links| && LinkAt(links, d, r) == i + LinkAt(links[i..], d, r)
    {
      if d == links[i].first && r == links[i].second {
        return links[i].firstIf;
      }
      if r == links[i].first && d == links[i].second {
        return links[i].secondIf;
      }
      assert links[i..][1..] == links[i + 1..];
      i := i + 1;
    }
    interface := 0;
  }

  lemma {:induction false} JoinedConcat(a: seq<string>, b: seq<string>, c: char)
    ensures Joined(a + b, c) == Joined(a, c) + Joined(b, c)
  {
    if a == [] {
      assert a + b == b;
    } else {
      assert (a + b)[1..] == a[1..] + b;
      JoinedConcat(a[1..], b, c);
    }
  }

  lemma JoinedPair(a: string, b: string, c: char)
    ensures Joined([a, b], c) == a + [c] + b + [c]
  {
    assert [a, b][1..] == [b] && [b][1..] == [];
    assert Joined([b], c) == b + [c] + [];
  }

  /** One device more on the printed line. */
  lemma PrintedStep(links: seq<Link>, p: seq<nat>, i: nat)
    requires i < |p| && |p| >= 2
    ensures i == 0 ==> Joined(Atoms(links, p[..i]), ';') == "" && Joined(Atoms(links, p[..i + 1]), ';') == ""
    ensures i > 0 ==> (Joined(Atoms(links, p[..i + 1]), ';')
      == Joined(Atoms(links, p[..i]), ';') + (Atom(links, p[i - 1], p[i]) + ";") + (Atom(links, p[i], p[i - 1]) + ";"))
  {
    hide Atom;
    if i > 0 {
      var q := p[..i + 1];
      assert q[..i] == p[..i];
      AtomsLast(links, q);
      JoinedConcat(Atoms(links, p[..i]), [Atom(links, p[i - 1], p[i]), Atom(links, p[i], p[i - 1])], ';');
      JoinedPair(Atom(links, p[i - 1], p[i]), Atom(links, p[i], p[i - 1]), ';');
    }
  }

  method PrintAtom(links: seq<Link>, d: nat, r: nat) returns (text: string)
    ensures text == Atom(links, d, r) + ";"
  {
    var interface := AddInterface(links, d, r);
    text := Decimal(d) + ":" + Decimal(interface) + ";";
  }

  /** What is printed for device `i`: an atom for each of its links on the path. */
  ghost function Piece(links: seq<Link>, p: seq<nat>, i: nat): string
    requires i < |p| && |p| >= 2
  {
    (if i > 0 then Atom(links, p[i], p[i - 1]) + ";" else "")
    + (if i < |p| - 1 then Atom(links, p[i], p[i + 1]) + ";" else "")
  }

  /** What is printed before device `i`. */
  ghost function Before(links: seq<Link>, p: seq<nat>, i: nat): string
    requires i <= |p|
  {
    Joined(Atoms(links, p[..i]), ';') + (if 0 < i < |p| then Atom(links, p[i - 1], p[i]) + ";" else "")
  }

  lemma PieceFollows(links: seq<Link>, p: seq<nat>, i: nat)
    requires i < |p| && |p| >= 2
    ensures Before(links, p, i + 1) == Before(links, p, i) + Piece(links, p, i)
  {
    hide Atom;
    PrintedStep(links, p, i);
  }

  lemma PieceIs(links: seq<Link>, p: seq<nat>, i: nat)
    requires i < |p| && |p| >= 2
    ensures i == 0 ==> Piece(links, p, i) == Atom(links, p[i], p[i + 1]) + ";"
    ensures i == |p| - 1 ==> Piece(links, p, i) == Atom(links, p[i], p[i - 1]) + ";"
    ensures 0 < i < |p| - 1 ==> Piece(links, p, i) == Atom(links, p[i], p[i - 1]) + ";" + (Atom(links, p[i], p[i + 1]) + ";")
  {
    hide Atom;
  }

  /** Prints a path of at least two devices: inner devices stand once for each of their links. */
  method WritingFile(links: seq<Link>, p: seq<nat>) returns (text: string)
    requires |p| >= 2
    ensures text == Printed(links, p) + "\n"
  {
    hide *;
    text := "";
    BeforeEnds(links, p);
    for i := 0 to |p|
      invariant i < |p| ==> text == Before(links, p, i)
      invariant i == |p| ==> text == Before(links, p, i) + "\n"
    {
      PieceFollows(links, p, i);
      PieceIs(links, p, i);
      if i == 0 {
        var atom := PrintAtom(links, p[i], p[i + 1]);
        text := text + atom;
      } else if i == |p| - 1 {
        var atom := PrintAtom(links, p[i], p[i - 1]);
        text := text + atom + "\n";
      } else {
        var atom := PrintAtom(links, p[i], p[i - 1]);
        var next := PrintAtom(links, p[i], p[i + 1]);
        text := text + (atom + next);
      }
    }
  }

  lemma BeforeEnds(links: seq<Link>, p: seq<nat>)
    ensures Before(links, p, 0) == "" && Before(links, p, |p|) == Printed(links, p)
  {
    assert p[..|p|] == p;
  }

  method FindAllHops(s: string) returns (hops: seq<string>)
    ensures hops == Tokens(s, ';')
  {
    hops := [];
    var rest := s;
    while rest != []
      invariant hops + Tokens(rest, ';') == Tokens(s, ';')
      decreases |rest|
    {
      if rest[0] == ';' {
        rest := rest[1..];
      } else {
        var n := Run(rest, ';');
        assert hops + ([rest[..n]] + Tokens(rest[n..], ';')) == hops + [rest[..n]] + Tokens(rest[n..], ';');
        hops := hops + [rest[..n]];
        rest := rest[n..];
      }
    }
  }

  method FindQueue(queues: seq<Queue>, t: nat, ti: nat, r: nat, ri: nat) returns (found: Option<nat>)
    ensures var i := QueueAt(queues, Queue(t, ti, r, ri)); found == if i < |queues| then Some(i) else None
  {
    var i := 0;
    while i < |queues|
      invariant i <= |queues| && QueueAt(queues, Queue(t, ti, r, ri)) == i + QueueAt(queues[i..], Queue(t, ti, r, ri))
    {
      if queues[i].tx == t && queues[i].txIf == ti && queues[i].rx == r && queues[i].rxIf == ri {
        return Some(i);
      }
      assert queues[i..][1..] == queues[i + 1..];
      i := i + 1;
    }
    found := None;
  }

  /** A line that says there is no path. */
  predicate NoPath(path: string)
    requires path != []
  {
    path[0] == 'n' || path[0] == 'N'
  }

  /** Reads a line as the hops of an application; a line that starts with n names no path. */
  method SetPathForApp(queues: seq<Queue>, path: string) returns (hops: Option<seq<nat>>)
    requires path != [] && (NoPath(path) || (Tokens(path, ';') != [] && Hops(Tokens(path, ';'))))
    ensures hops == if path[0] in {'n', 'N'} then Some([]) else PathOf(queues, Tokens(path, ';'))
  {
    if NoPath(path) {
      return Some([]);
    }
    var all := FindAllHops(path);
    var result: seq<nat> := [];
    for i := 1 to |all|
      invariant PathOf(queues, all[..i]) == Some(result)
    {
      assert all[..i + 1][..i] == all[..i];
      var tx, ti := Device(all[i - 1]), InterfaceOf(all[i - 1]);
      var rx, ri := Device(all[i]), InterfaceOf(all[i]);
      if tx == rx {
        continue;
      }
      var q := FindQueue(queues, tx, ti, rx, ri);
      if q == None {
        MissingStays(queues, all, i + 1);
        return None;
      }
      result := result + [q.value];
    }
    assert all[..|all|] == all;
    hops := Some(result);
  }

  lemma {:induction false} MissingStays(queues: seq<Queue>, hops: seq<string>, n: nat)
    requires Hops(hops) && n <= |hops| && PathOf(queues, hops[..n]) == None
    ensures PathOf(queues, hops) == None
    decreases |hops| - n
  {
    if n == |hops| {
      assert hops[..n] == hops;
    } else {
      assert hops[..n + 1][..n] == hops[..n];
      MissingStays(queues, hops, n + 1);
    }
  }

  /** The text of a line between white space at its ends. */
  function WithoutNewline(s: string): string {
    if s != [] && s[|s| - 1] == '\n' then s[..|s| - 1] else s
  }

  /** Printing a path and reading the line back sets its queues, in order. */
  method WriteAndRead(links: seq<Link>, p: seq<nat>) returns (hops: Option<seq<nat>>)
    requires |p| >= 2 && Path(links, p)
    ensures hops == Some(QueuesOf(links, p))
  {
    var text := WritingFile(links, p);
    var line := WithoutNewline(text);
    assert line == Printed(links, p);
    RoundTrip(links, p);
    StartsWithDigit(links, p);
    hops := SetPathForApp(Queues(links), line);
  }

  lemma StartsWithDigit(links: seq<Link>, p: seq<nat>)
    requires |p| >= 2
    ensures Printed(links, p) != [] && IsDigit(Printed(links, p)[0]) && Tokens(Printed(links, p), ';') != []
  {
    DecimalIsDigits(p[0]);
    assert Atoms(links, p)[0] == Atom(links, p[0], p[1]);
  }
}
