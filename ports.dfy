/**
 * Serial port auto-detection (`autodetect_port`): the first enumerated port
 * whose manufacturer or description mentions "Arduino", or one of two errors.
 * The enumeration itself is a parameter.
 */
module Ports {
  import opened Wrappers
  import opened Text

  /** One entry of the port enumeration; manufacturer and description may be `None`. */
  datatype PortInfo = PortInfo(device: string, manufacturer: Option<string>, description: Option<string>)

  /** The two ways detection fails. */
  datatype DetectError =
    | NoPortsFound                           // the enumeration was empty
    | NoArduino(candidates: seq<PortInfo>)   // ports exist, none mentions Arduino

  const Brand := "Arduino"

  /** Python's `field or ""`. */
  function OrEmpty(field: Option<string>): (r: string)
    ensures field.Some? && field.value != "" ==> r == field.value
    ensures r == "" <==> field.None? || field.value == ""
  {
    match field
    case None => ""
    case Some(s) => s
  }

  predicate MentionsArduino(p: PortInfo): (r: bool)
    ensures r <==> (exists k :: OccursAt(OrEmpty(p.manufacturer), Brand, k))
                   || (exists k :: OccursAt(OrEmpty(p.description), Brand, k))
    ensures p.manufacturer.None? && p.description.None? ==> !r
  {
    Contains(OrEmpty(p.manufacturer), Brand) || Contains(OrEmpty(p.description), Brand)
  }

  /** Index of the first port that mentions Arduino, if any. */
  function FirstArduino(ports: seq<PortInfo>): (r: Option<nat>)
    ensures r.Some? ==> r.value < |ports| && MentionsArduino(ports[r.value])
                        && forall j :: 0 <= j < r.value ==> !MentionsArduino(ports[j])
    ensures r.None? ==> forall j :: 0 <= j < |ports| ==> !MentionsArduino(ports[j])
    decreases |ports|
  {
    if ports == [] then None
    else if MentionsArduino(ports[0]) then Some(0)
    else match FirstArduino(ports[1..])
      case None => None
      case Some(i) => Some(i + 1)
  }

  /** `autodetect_port()` over the given enumeration. */
  function AutodetectPort(ports: seq<PortInfo>): (r: Result<string, DetectError>)
    ensures r.Success? <==> exists i :: 0 <= i < |ports| && MentionsArduino(ports[i])
    ensures r.Success? ==> exists i :: 0 <= i < |ports| && ports[i].device == r.value && MentionsArduino(ports[i])
                                       && forall j :: 0 <= j < i ==> !MentionsArduino(ports[j])
    ensures ports == [] ==> r == Failure(NoPortsFound)
    ensures r.Failure? && ports != [] ==> r.error == NoArduino(ports)
  {
    match FirstArduino(ports)
    case Some(i) => Success(ports[i].device)
    case None => if ports == [] then Failure(NoPortsFound) else Failure(NoArduino(ports))
  }

  /** An f-string renders `None` as "None". */
  function Shown(field: Option<string>): string {
    match field
    case None => "None"
    case Some(s) => s
  }

  /** One line of the candidate list: `device: description`. */
  function Entry(p: PortInfo): string {
    p.device + ": " + Shown(p.description)
  }

  /** The candidate list, one entry per port in enumeration order. */
  function Entries(ports: seq<PortInfo>): seq<string> {
    seq(|ports|, i requires 0 <= i < |ports| => Entry(ports[i]))
  }

  const Intro := "Unable to auto-detect an Arduino on serial port.\nDetected serial ports:\n  "
  const Between := "\n  "
  const Outro := "\nSpecify the port manually with --port"

  /** The text of the `RuntimeError` raised for each failure. */
  function Message(e: DetectError): string {
    match e
    case NoPortsFound => "No serial ports found."
    case NoArduino(ports) => Intro + JoinWith(Entries(ports), Between) + Outro
  }

  /** Where the entry of port `i` begins in the no-match message. */
  function EntryOffset(ports: seq<PortInfo>, i: nat): nat
    requires i < |ports|
  {
    |Intro| + JoinOffset(Entries(ports), Between, i)
  }

  /** The no-match message lists every port as `device: description` ... */
  lemma MessageListsPort(ports: seq<PortInfo>, i: nat)
    requires i < |ports|
    ensures var m := Message(NoArduino(ports));
            var k := EntryOffset(ports, i);
            k + |Entry(ports[i])| <= |m| && m[k..k + |Entry(ports[i])|] == Entry(ports[i])
  {
    var es := Entries(ports);
    var body := JoinWith(es, Between);
    JoinHasPiece(es, Between, i);
    var k := JoinOffset(es, Between, i);
    assert Message(NoArduino(ports)) == Intro + body + Outro;
    assert EntryOffset(ports, i) == |Intro| + k;
    assert es[i] == Entry(ports[i]);
    MiddleSlice(Intro, body, Outro, k, |es[i]|);
  }

  /** A slice inside the middle part of `a + b + c` is a slice of `b`. */
  lemma MiddleSlice(a: string, b: string, c: string, k: nat, n: nat)
    requires k + n <= |b|
    ensures (a + b + c)[|a| + k..|a| + k + n] == b[k..k + n]
  {
    var m := a + b + c;
    assert m[|a|..|a| + |b|] == b;
    assert m[|a| + k..|a| + k + n] == m[|a|..|a| + |b|][k..k + n];
  }

  /** ... in the order of the enumeration. */
  lemma MessageInPortOrder(ports: seq<PortInfo>, i: nat, j: nat)
    requires i < j < |ports|
    ensures EntryOffset(ports, i) + |Entry(ports[i])| < EntryOffset(ports, j)
  {
    JoinOffsetsOrdered(Entries(ports), Between, i, j);
  }

  /** The no-match message opens by saying no Arduino was found and ends
      by asking for `--port`. */
  lemma MessageFramed(ports: seq<PortInfo>)
    ensures var m := Message(NoArduino(ports));
            |Intro| + |Outro| <= |m| && m[..|Intro|] == Intro && m[|m| - |Outro|..] == Outro
  {
    var body := JoinWith(Entries(ports), Between);
    var m := Intro + body + Outro;
    assert Message(NoArduino(ports)) == m;
    assert m[..|Intro|] == Intro;
    assert m[|m| - |Outro|..] == Outro;
  }

  /** The two failures are told apart by their messages. */
  lemma MessagesDiffer(ports: seq<PortInfo>)
    ensures Message(NoPortsFound) != Message(NoArduino(ports))
  {
    var m := Message(NoArduino(ports));
    assert m == Intro + (JoinWith(Entries(ports), Between) + Outro);
    assert |Message(NoPortsFound)| < |Intro| <= |m|;
  }
}
