/**
 * The ID verification of the police dashboard: the substring rule that turns an
 * entered or scanned ID into one of three fixed records, the scanning flag that
 * the manual and QR entry points raise until a delayed completion lowers it, and
 * the switch functions that map status words to badge colours.
 *
 * The delays are not modelled as time. Scheduling a callback appends a `Timer`
 * to a pending list and any pending timer may fire next, so the model covers
 * every order in which the callbacks can run.
 */
module PoliceDashboard {
  import opened Wrappers
  import opened JsString

  datatype VerificationStatus = Valid | Invalid | Expired | Suspicious

  datatype RiskLevel = Low | Medium | High

  /** The `VerificationResult` record; `photo` is optional and never filled in. */
  datatype VerificationResult = VerificationResult(
    digitalId: string,
    name: string,
    nationality: string,
    agency: string,
    status: VerificationStatus,
    photo: Option<string>,
    issuedDate: string,
    expiryDate: string,
    currentLocation: string,
    riskLevel: RiskLevel,
    emergencyContact: string,
    lastVerified: string)

  /** The ID a QR scan always reads. */
  const QrCodeId := "GA-UK-001-2024"

  /** The second key of the first branch. */
  const TouristId := "TID-001234"

  /** The key of the second branch. */
  const SuspiciousId := "ST-US-002-2024"

  const EmmaWilson := VerificationResult(
    "GA-UK-001-2024", "Emma Wilson", "United Kingdom", "Global Adventures Ltd", Valid, None,
    "2024-01-15", "2024-12-31", "Agra, Uttar Pradesh", Low, "+44-7911-123456", "2 minutes ago")

  const JamesSmith := VerificationResult(
    "ST-US-002-2024", "James Smith", "United States", "Sunrise Travel Co", Suspicious, None,
    "2024-02-10", "2024-12-31", "Delhi NCR", High, "+1-555-987-6543", "15 minutes ago")

  /** The record for an ID nobody recognises; it carries the input as typed. */
  function UnknownTourist(input: string): VerificationResult
  {
    VerificationResult(
      input, "Unknown Tourist", "Unknown", "Unknown", Invalid, None,
      "N/A", "N/A", "Unknown", High, "N/A", "Never")
  }

  /** A record verification can produce: the classification of its own ID. */
  predicate IsIssuedRecord(r: VerificationResult)
  {
    r == Classify(r.digitalId)
  }

  /** The body of the verification callback: substring tests in branch order. */
  function Classify(input: string): (r: VerificationResult)
    ensures r.status == Valid <==> Includes(input, QrCodeId) || Includes(input, TouristId)
    ensures r.status == Suspicious <==>
      !Includes(input, QrCodeId) && !Includes(input, TouristId) && Includes(input, SuspiciousId)
    ensures r.status == Invalid <==>
      !Includes(input, QrCodeId) && !Includes(input, TouristId) && !Includes(input, SuspiciousId)
    ensures r.status != Expired
    ensures r.riskLevel == Low <==> r.status == Valid
    ensures r.status == Valid ==> r == EmmaWilson
    ensures r.status == Suspicious ==> r == JamesSmith
    ensures r.status == Invalid ==> r == UnknownTourist(input)
  {
    if Includes(input, QrCodeId) || Includes(input, TouristId) then EmmaWilson
    else if Includes(input, SuspiciousId) then JamesSmith
    else UnknownTourist(input)
  }

  /** The scanned code classifies as Emma Wilson's valid record. */
  lemma QrCodeIsValid()
    ensures Classify(QrCodeId) == EmmaWilson
  {
    IncludesItself(QrCodeId);
  }

  /** The suspicious ID alone classifies as James Smith's suspicious record: it holds no
      'G' and no 'I', so it includes neither first-branch key. */
  lemma SuspiciousIdIsSuspicious()
    ensures Classify(SuspiciousId) == JamesSmith
  {
    IncludesItself(SuspiciousId);
    SuspiciousIdLetters();
    assert QrCodeId[0] == 'G' && TouristId[1] == 'I';
    if Includes(SuspiciousId, QrCodeId) {
      IncludesCharacters(SuspiciousId, QrCodeId, 'G');
    }
    if Includes(SuspiciousId, TouristId) {
      IncludesCharacters(SuspiciousId, TouristId, 'I');
    }
  }

  lemma SuspiciousIdLetters()
    ensures 'G' !in SuspiciousId && 'I' !in SuspiciousId
  {
    forall k | 0 <= k < |SuspiciousId|
      ensures SuspiciousId[k] != 'G' && SuspiciousId[k] != 'I'
    {
      assert SuspiciousId[k] in "STU-024";
    }
  }

  /** Every verification yields a record that its own ID classifies to again, so the only
      records are Emma Wilson's, James Smith's and the unknown record of the input. */
  lemma ClassifyIssuesRecord(input: string)
    ensures IsIssuedRecord(Classify(input))
    ensures Classify(input) in {EmmaWilson, JamesSmith, UnknownTourist(input)}
  {
    var r := Classify(input);
    if r.status == Valid {
      QrCodeIsValid();
    } else if r.status == Suspicious {
      SuspiciousIdIsSuspicious();
    }
  }

  /** Branch order decides ties: the tourist ID beats the suspicious ID, in either order. */
  lemma TouristIdBeatsSuspicious(before: string, middle: string, after: string)
    ensures Classify(before + TouristId + middle + SuspiciousId + after) == EmmaWilson
    ensures Classify(before + SuspiciousId + middle + TouristId + after) == EmmaWilson
  {
    IncludesItself(TouristId);
    IncludesInContext(TouristId, TouristId, before, middle + SuspiciousId + after);
    assert before + TouristId + (middle + SuspiciousId + after)
        == before + TouristId + middle + SuspiciousId + after;
    IncludesInContext(TouristId, TouristId, before + SuspiciousId + middle, after);
    assert before + SuspiciousId + middle + TouristId + after
        == (before + SuspiciousId + middle) + TouristId + after;
  }

  /** Text around an input never makes a recognised ID less recognised: a valid input
      stays valid, and a suspicious one becomes valid or stays suspicious. */
  lemma ClassifyInContext(input: string, before: string, after: string)
    ensures Classify(input).status == Valid ==> Classify(before + input + after).status == Valid
    ensures Classify(input).status == Suspicious ==>
      Classify(before + input + after).status in {Valid, Suspicious}
  {
    if Includes(input, QrCodeId) {
      IncludesInContext(input, QrCodeId, before, after);
    } else if Includes(input, TouristId) {
      IncludesInContext(input, TouristId, before, after);
    } else if Includes(input, SuspiciousId) {
      IncludesInContext(input, SuspiciousId, before, after);
    }
  }

  /** The colour categories the badge class strings encode. */
  datatype Hue = Red | Orange | Yellow | Blue | Green | Gray

  /** `getSeverityColor`. */
  function SeverityColor(severity: string): (h: Hue)
    ensures h == Red <==> severity == "high"
    ensures h == Orange <==> severity == "medium"
    ensures h == Yellow <==> severity == "low"
    ensures h == Gray <==> severity !in {"high", "medium", "low"}
  {
    match severity
    case "high" => Red
    case "medium" => Orange
    case "low" => Yellow
    case _ => Gray
  }

  /** `getStatusColor`, for incident statuses. */
  function IncidentStatusColor(status: string): (h: Hue)
    ensures h == Red <==> status == "active"
    ensures h == Orange <==> status == "investigating"
    ensures h == Blue <==> status == "responded"
    ensures h == Green <==> status == "resolved"
    ensures h == Gray <==> status !in {"active", "investigating", "responded", "resolved"}
  {
    match status
    case "active" => Red
    case "investigating" => Orange
    case "responded" => Blue
    case "resolved" => Green
    case _ => Gray
  }

  /** `getTouristStatusColor`. */
  function TouristStatusColor(status: string): (h: Hue)
    ensures h == Red <==> status == "emergency"
    ensures h == Orange <==> status == "caution"
    ensures h == Green <==> status == "safe"
    ensures h == Gray <==> status !in {"emergency", "caution", "safe"}
  {
    match status
    case "emergency" => Red
    case "caution" => Orange
    case "safe" => Green
    case _ => Gray
  }

  /** A badge colour; `alarm` is the stronger, pulsing variant. */
  datatype Tone = Tone(hue: Hue, alarm: bool)

  /** `getVerificationStatusColor`. */
  function VerificationStatusColor(status: string): (t: Tone)
    ensures t.alarm <==> status == "suspicious"
    ensures t.hue == Red <==> status in {"invalid", "suspicious"}
    ensures t.hue == Green <==> status == "valid"
    ensures t.hue == Orange <==> status == "expired"
    ensures t.hue == Gray <==> status !in {"valid", "invalid", "expired", "suspicious"}
  {
    match status
    case "valid" => Tone(Green, false)
    case "invalid" => Tone(Red, false)
    case "expired" => Tone(Orange, false)
    case "suspicious" => Tone(Red, true)
    case _ => Tone(Gray, false)
  }

  /** The word the record's `status` field holds. */
  function StatusName(status: VerificationStatus): string
  {
    match status
    case Valid => "valid"
    case Invalid => "invalid"
    case Expired => "expired"
    case Suspicious => "suspicious"
  }

  /** A verification badge is never grey, is green exactly for a valid record, and
      pulses exactly for a suspicious one. */
  lemma VerificationBadge(status: VerificationStatus)
    ensures VerificationStatusColor(StatusName(status)).hue != Gray
    ensures VerificationStatusColor(StatusName(status)).hue == Green <==> status == Valid
    ensures VerificationStatusColor(StatusName(status)).alarm <==> status == Suspicious
  {
  }

  /** The colour of a statistic's week-on-week change. */
  function ChangeColor(change: string): (h: Hue)
    ensures h == Green <==> StartsWith(change, "+")
    ensures h == Red <==> !StartsWith(change, "+")
  {
    if StartsWith(change, "+") then Green else Red
  }

  /** Only a leading plus is green: an unsigned or zero change is red. */
  lemma ChangeColors()
    ensures ChangeColor("+12%") == Green && ChangeColor("+2") == Green
    ensures ChangeColor("-8%") == Red && ChangeColor("-15%") == Red
    ensures ChangeColor("0%") == Red && ChangeColor("") == Red
  {
    assert "-8%"[0] != '+' && "-15%"[0] != '+' && "0%"[0] != '+';
  }

  /** A callback waiting on a timer. */
  datatype Timer =
    | VerifyTimer(input: string)   // the completion scheduled by `handleVerification`
    | ScanTimer                    // the camera delay scheduled by `handleScanQR`

  /** A snapshot of the verification fields and the callbacks still to run. */
  datatype Board = Board(
    verificationInput: string,
    verificationResult: Option<VerificationResult>,
    isScanning: bool,
    pending: seq<Timer>)

  const Initial := Board("", None, false, [])

  /** What holds between events: while scanning no result is shown and some callback is
      still to run, and any result shown is a record its own ID classifies to. */
  predicate Inv(b: Board)
  {
    (b.isScanning ==> b.verificationResult.None? && |b.pending| > 0)
    && (b.verificationResult.Some? ==> IsIssuedRecord(b.verificationResult.value))
  }

  /** The ID field's edit. */
  function SetInput(b: Board, text: string): Board
  {
    b.(verificationInput := text)
  }

  /** `handleVerification(input)`: schedule the completion. */
  function Verify(b: Board, input: string): Board
  {
    b.(pending := b.pending + [VerifyTimer(input)])
  }

  /** `handleScanQR`. */
  function ScanQR(b: Board): Board
  {
    b.(isScanning := true, verificationResult := None, pending := b.pending + [ScanTimer])
  }

  /** `handleManualVerification`: the untrimmed input is verified unless it is blank. */
  function ManualVerification(b: Board): Board
  {
    if IsBlank(b.verificationInput) then b
    else Verify(b.(isScanning := true, verificationResult := None), b.verificationInput)
  }

  /** The pending callback at `k` runs and leaves the list. */
  function Fire(b: Board, k: nat): Board
    requires k < |b.pending|
  {
    var rest := b.pending[..k] + b.pending[k + 1..];
    match b.pending[k]
    case VerifyTimer(input) =>
      b.(verificationResult := Some(Classify(input)), isScanning := false, pending := rest)
    case ScanTimer => Verify(b.(pending := rest), QrCodeId)
  }

  lemma InitialInv()
    ensures Inv(Initial)
  {
  }

  lemma ManualVerificationKeepsInv(b: Board)
    requires Inv(b)
    ensures Inv(ManualVerification(b))
  {
  }

  lemma ScanQRKeepsInv(b: Board)
    requires Inv(b)
    ensures Inv(ScanQR(b))
  {
  }

  lemma VerifyKeepsInv(b: Board, input: string)
    requires Inv(b)
    ensures Inv(Verify(b, input))
  {
  }

  lemma FireKeepsInv(b: Board, k: nat)
    requires Inv(b) && k < |b.pending|
    ensures Inv(Fire(b, k))
  {
    if b.pending[k].VerifyTimer? {
      ClassifyIssuesRecord(b.pending[k].input);
    }
  }

  /** A blank input changes nothing; any other input raises the flag, hides the old
      result and schedules the verification of the input exactly as typed. */
  lemma ManualVerificationSpec(b: Board)
    ensures IsBlank(b.verificationInput) ==> ManualVerification(b) == b
    ensures !IsBlank(b.verificationInput) ==>
      ManualVerification(b).isScanning && ManualVerification(b).verificationResult.None?
      && ManualVerification(b).pending == b.pending + [VerifyTimer(b.verificationInput)]
      && ManualVerification(b).verificationInput == b.verificationInput
  {
  }

  /** An input that trims to nothing does nothing. */
  lemma TrimmedEmptyIgnored(b: Board)
    requires Trim(b.verificationInput) == ""
    ensures ManualVerification(b) == b
  {
    TrimEmptyIffBlank(b.verificationInput);
  }

  /** Every completion lowers the flag and shows the classification of its input. */
  lemma CompletionSpec(b: Board, k: nat)
    requires k < |b.pending| && b.pending[k].VerifyTimer?
    ensures !Fire(b, k).isScanning
    ensures Fire(b, k).verificationResult == Some(Classify(b.pending[k].input))
    ensures Fire(b, k).pending == b.pending[..k] + b.pending[k + 1..]
  {
  }

  /** A QR scan, once its two callbacks have run, shows Emma Wilson's valid record and
      leaves the rest of the pending list as it was. */
  lemma ScanCompletes(b: Board)
    ensures var n := |b.pending|;
      var b1 := ScanQR(b);
      var b2 := Fire(b1, n);
      var b3 := Fire(b2, n);
      b1.isScanning && b1.verificationResult.None?
      && b2.isScanning && b2.pending == b.pending + [VerifyTimer(QrCodeId)]
      && !b3.isScanning && b3.verificationResult == Some(EmmaWilson) && b3.pending == b.pending
  {
    var n := |b.pending|;
    var b1 := ScanQR(b);
    assert b1.pending[..n] + b1.pending[n + 1..] == b.pending;
    var b2 := Fire(b1, n);
    assert b2.pending[..n] + b2.pending[n + 1..] == b.pending;
    QrCodeIsValid();
  }

  /** The dashboard's verification fields, updated in place by its handlers. */
  class Dashboard {
    var verificationInput: string
    var verificationResult: Option<VerificationResult>
    var isScanning: bool
    var pending: seq<Timer>

    function State(): Board
      reads this
    {
      Board(verificationInput, verificationResult, isScanning, pending)
    }

    predicate Valid()
      reads this
    {
      Inv(State())
    }

    constructor ()
      ensures State() == Initial && Valid()
    {
      verificationInput := "";
      verificationResult := None;
      isScanning := false;
      pending := [];
    }

    method SetVerificationInput(text: string)
      requires Valid()
      modifies this
      ensures State() == SetInput(old(State()), text) && Valid()
    {
      verificationInput := text;
    }

    method HandleVerification(input: string)
      modifies this
      ensures State() == Verify(old(State()), input)
    {
      pending := pending + [VerifyTimer(input)];
    }

    method HandleScanQR()
      requires Valid()
      modifies this
      ensures State() == ScanQR(old(State())) && Valid()
    {
      isScanning := true;
      verificationResult := None;
      pending := pending + [ScanTimer];
    }

    method HandleManualVerification()
      requires Valid()
      modifies this
      ensures State() == ManualVerification(old(State())) && Valid()
    {
      ManualVerificationKeepsInv(State());
      if !IsBlank(verificationInput) {
        isScanning := true;
        verificationResult := None;
        HandleVerification(verificationInput);
      }
    }

    /** The timer at `k` elapses and its callback runs. */
    method FireTimer(k: nat)
      requires Valid() && k < |pending|
      modifies this
      ensures State() == Fire(old(State()), k) && Valid()
    {
      FireKeepsInv(State(), k);
      var timer := pending[k];
      pending := pending[..k] + pending[k + 1..];
      match timer
      case VerifyTimer(input) =>
        verificationResult := Some(Classify(input));
        isScanning := false;
      case ScanTimer =>
        HandleVerification(QrCodeId);
    }
  }

  /** Pressing the scan button and letting both delays elapse shows Emma Wilson's
      valid, low-risk record with the flag lowered. */
  method ScanToCompletion() returns (result: Option<VerificationResult>, scanning: bool)
    ensures !scanning && result.Some?
    ensures result.value.digitalId == QrCodeId && result.value.status == Valid
    ensures result.value.riskLevel == Low
  {
    var dashboard := new Dashboard();
    ScanCompletes(Initial);
    dashboard.HandleScanQR();
    dashboard.FireTimer(0);
    dashboard.FireTimer(0);
    result, scanning := dashboard.verificationResult, dashboard.isScanning;
  }
}
