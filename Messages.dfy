/** What the terminal can print. The interpreter appends `Message` values to the log; `Render`
    gives the exact text the component shows for each, so that the long canned strings are
    defined once, here, and the reasoning about the interpreter never has to look inside
    them. */
module Messages {
  import opened Text
  import opened World

  /** The fixed lists of lines the component prints in one go, or picks one line from. */
  datatype Block =
    | WelcomeText | HelpText | HackText | MatrixText | SudoText | ContactText
    | PingResponses | DecryptMessages

  /** How many lines each block has. */
  function BlockSize(b: Block): nat {
    match b
    case WelcomeText => 3
    case HelpText => 12
    case HackText => 5
    case MatrixText => 4
    case SudoText => 4
    case ContactText => 3
    case PingResponses => 4
    case DecryptMessages => 5
  }

  /** The lines of each block, in the order the component adds them. */
  function BlockText(b: Block): seq<string> {
    match b
    case WelcomeText => [
      "WELCOME TO THE DIAVLO HACKING TERMINAL",
      "NEURAL INTERFACE INITIALIZED...",
      "TYPE 'HELP' TO ACCESS COMMAND DATABASE."]
    case HelpText => [
      "=== DIAVLO TERMINAL COMMAND DATABASE ===",
      "SCAN - Analyze current digital environment",
      "JACK [DIRECTION] - Move through the neural network",
      "PROBE [OBJECT] - Deep scan digital artifacts",
      "DOWNLOAD [ITEM] - Acquire digital assets",
      "CACHE - View your digital inventory",
      "HACK - Attempt to breach security protocols",
      "MATRIX - Display system architecture",
      "PING - Test network connectivity",
      "DECRYPT - Decode encrypted messages",
      "SUDO - Execute admin commands",
      "EXIT - Disconnect from terminal"]
    case HackText => [
      ">>> INITIATING HACK SEQUENCE <<<",
      "Scanning for vulnerabilities...",
      "Buffer overflow detected...",
      "Injecting payload...",
      "ACCESS GRANTED - Welcome to the shadow network."]
    case MatrixText => [
      "=== NETWORK ARCHITECTURE ===",
      "MAINFRAME ←→ SERVER_ROOM ←→ CONTROL_CENTER",
      "    ↓              ↑",
      "DATA_VAULT    (secured)"]
    case SudoText => [
      "sudo: Authentication required",
      "Password: ********",
      "SUDO ACCESS GRANTED - You are now root.",
      "With great power comes great responsibility."]
    case ContactText => [
      "SYSTEM ADMINISTRATOR: admin@diavlo.corp",
      "NEURAL SUPPORT HOTLINE: 1-800-MATRIX",
      "EMERGENCY DISCONNECT: CTRL+ALT+JACK"]
    case PingResponses => [
      "PING google.com - 64 bytes: time=1337ms TTL=42",
      "PING matrix.net - Connection timeout",
      "PING localhost - 64 bytes: time=0.1ms TTL=255",
      "PING diavlo.corp - Access denied by firewall"]
    case DecryptMessages => [
      "MESSAGE DECRYPTED: 'The cake is a lie'",
      "MESSAGE DECRYPTED: 'Follow the white rabbit'",
      "MESSAGE DECRYPTED: 'There is no spoon'",
      "MESSAGE DECRYPTED: 'Wake up, Neo'",
      "DECRYPTION FAILED: Insufficient privileges"]
  }

  /** Everything the component writes to its log. */
  datatype Message =
    | Canned(block: Block, index: nat)
    | Prompt(command: string)
    | ScanHeader
    | Description(room: string)
    | Artifacts(items: seq<string>)
    | Pathways(directions: seq<string>)
    | JackWhere
    | JackingInto(target: string)
    | LinkEstablished
    | PathwayBlocked
    | ProbeWhat
    | ItemReport(item: string)
    | AnalyzingFromCache(item: string)
    | ItemVerified
    | ArtifactNotFound
    | DownloadWhat
    | Downloading(item: string)
    | TransferComplete
    | DownloadFailed
    | CacheEmpty
    | CacheHeader
    | StoredArtifacts(items: seq<string>)
    | CacheUtilization(count: nat)
    | CurrentLocation(room: string)
    | NotRecognized(action: string)
    | HelpHint

  /** `list.join(', ').toUpperCase()`, as the room, pathway and cache listings render. */
  function Listing(names: seq<string>): string {
    Upper(Join(names, ", "))
  }

  /** The text the component shows for a message. A canned index past the end of its block
      and a room the table lacks render as the empty string; the interpreter produces
      neither. */
  function Render(m: Message): string {
    match m
    case Canned(b, i) => if i < |BlockText(b)| then BlockText(b)[i] else ""
    case Prompt(command) => "> " + command
    case ScanHeader => ">>> SCANNING ENVIRONMENT <<<"
    case Description(room) => if room in RoomDescriptions then RoomDescriptions[room] else ""
    case Artifacts(items) => "DIGITAL ARTIFACTS DETECTED: " + Listing(items)
    case Pathways(directions) => "NETWORK PATHWAYS: " + Listing(directions)
    case JackWhere => "JACK WHERE? Specify a network pathway."
    case JackingInto(target) => ">>> JACKING INTO " + Upper(target) + " <<<"
    case LinkEstablished => "NEURAL LINK ESTABLISHED..."
    case PathwayBlocked => "PATHWAY BLOCKED. Access denied."
    case ProbeWhat => "PROBE WHAT? Specify target for deep scan."
    case ItemReport(item) => ItemDescription(item)
    case AnalyzingFromCache(item) => "ANALYZING " + Upper(item) + " FROM CACHE..."
    case ItemVerified => "ITEM VERIFIED - Digital signature intact."
    case ArtifactNotFound => "ARTIFACT NOT FOUND - Target does not exist in current scope."
    case DownloadWhat => "DOWNLOAD WHAT? Specify target artifact."
    case Downloading(item) => ">>> DOWNLOADING " + Upper(item) + " <<<"
    case TransferComplete => "TRANSFER COMPLETE - Artifact secured in cache."
    case DownloadFailed => "DOWNLOAD FAILED - Artifact not accessible."
    case CacheEmpty => "CACHE EMPTY - No digital artifacts stored."
    case CacheHeader => "=== DIGITAL CACHE CONTENTS ==="
    case StoredArtifacts(items) => "STORED ARTIFACTS: " + Listing(items)
    case CacheUtilization(count) => "CACHE UTILIZATION: " + NatToString(count) + "/10 slots"
    case CurrentLocation(room) => "Current location: " + Upper(room)
    case NotRecognized(action) => "COMMAND NOT RECOGNIZED: " + action
    case HelpHint => "Type 'HELP' to access the command database."
  }

  /** The utilisation line prints the count in decimal: its digits read back as the count. */
  lemma CacheUtilizationText(n: nat)
    ensures exists digits ::
      && Render(CacheUtilization(n)) == "CACHE UTILIZATION: " + digits + "/10 slots"
      && |digits| >= 1 && (|digits| > 1 ==> digits[0] != '0')
      && (forall k :: 0 <= k < |digits| ==> '0' <= digits[k] <= '9')
      && DecimalValue(digits) == n
  {
    var digits := NatToString(n);
    NatToStringValue(n);
    assert Render(CacheUtilization(n)) == "CACHE UTILIZATION: " + digits + "/10 slots";
    assert |digits| >= 1 && (|digits| > 1 ==> digits[0] != '0');
  }

  /** The `matrix` status line names the room in capitals. */
  lemma CurrentLocationText(room: string)
    ensures Render(CurrentLocation(room)) == "Current location: " + Upper(room)
  {
  }

  /** A ping line is one of the four canned responses. */
  lemma PingResponseText(i: nat)
    requires i < BlockSize(PingResponses)
    ensures Render(Canned(PingResponses, i)) in BlockText(PingResponses)
  {
  }

  /** A decrypt line is one of the five canned messages. */
  lemma DecryptMessageText(i: nat)
    requires i < BlockSize(DecryptMessages)
    ensures Render(Canned(DecryptMessages, i)) in BlockText(DecryptMessages)
  {
  }
}
