/** The identifiers of native notifications (apps/desktop/native_background_notifications.go): printed when a
    notification is submitted, and parsed again when the user clicks it. */
module NotificationId {

  import opened Common

  const PREFIX := "linksend."
  const MAX_TASK := 128
  const MAX_DIGITS := 20
  const REVISIONS := 0x1_0000_0000_0000_0000

  predicate TaskChar(c: char) {
    'a' <= c <= 'z' || 'A' <= c <= 'Z' || '0' <= c <= '9' || c == '-' || c == '_' || c == '.'
  }

  // validNativeTaskID
  predicate ValidTask(t: string) {
    && 1 <= |t| <= MAX_TASK && t[0] != '.' && t[|t| - 1] != '.'
    && (forall i | 0 <= i < |t| :: TaskChar(t[i]))
    && forall i | 0 <= i < |t| - 1 :: !(t[i] == '.' && t[i + 1] == '.')
  }

  predicate IsDigit(c: char) {
    '0' <= c <= '9'
  }

  function Digit(n: nat): char
    requires n < 10
  {
    '0' + n as char
  }

  function DigitValue(c: char): nat
    requires IsDigit(c)
  {
    (c - '0') as nat
  }

  // strconv.FormatUint
  function Decimal(n: nat): (s: string)
    ensures |s| >= 1 && forall i | 0 <= i < |s| :: IsDigit(s[i])
    ensures s[0] == '0' ==> n == 0
  {
    if n < 10 then [Digit(n)] else Decimal(n / 10) + [Digit(n % 10)]
  }

  // The value of a digit string, leading zeros included.
  function Value(s: string): nat
    requires forall i | 0 <= i < |s| :: IsDigit(s[i])
  {
    if s == [] then 0 else 10 * Value(s[..|s| - 1]) + DigitValue(s[|s| - 1])
  }

  // strconv.ParseUint
  function ParseRevision(s: string): Option<nat> {
    if s == [] || (exists i :: 0 <= i < |s| && !IsDigit(s[i])) then None
    else if Value(s) >= REVISIONS then None
    else Some(Value(s))
  }

  function LastDot(s: string): (k: int)
    ensures -1 <= k < |s|
    ensures k >= 0 ==> s[k] == '.'
    ensures forall i | k < i < |s| :: s[i] != '.'
  {
    if s == [] then -1 else if s[|s| - 1] == '.' then |s| - 1 else LastDot(s[..|s| - 1])
  }

  // nativeNotificationID
  function Print(task: string, revision: nat): string {
    PREFIX + task + "." + Decimal(revision)
  }

  datatype Note = Note(task: string, revision: nat)

  predicate ValidNote(n: Note) {
    ValidTask(n.task) && 0 < n.revision < REVISIONS
  }

  predicate HasPrefix(s: string, p: string) {
    |p| <= |s| && s[..|p|] == p
  }

  // handleResponse, as far as the identifier goes.
  function Parse(id: string): Option<Note> {
    if !HasPrefix(id, PREFIX) || |id| > |PREFIX| + MAX_TASK + 1 + MAX_DIGITS then None
    else
      var payload := id[|PREFIX|..];
      var k := LastDot(payload);
      if k <= 0 || !ValidTask(payload[..k]) then None
      else
        var text := payload[k + 1..];
        var revision := ParseRevision(text);
        if revision.None? || revision.value == 0 || Decimal(revision.value) != text then None
        else Some(Note(payload[..k], revision.value))
  }

  // What the system hands back beside the identifier under one key.
  datatype Info = Absent | Text(text: string) | Other

  predicate Agrees(info: Info, text: string) {
    info.Absent? || (info.Text? && info.text == text)
  }

  // What a click opens, if it opens anything.
  function Opened(id: string, taskInfo: Info, revisionInfo: Info): Option<string> {
    var note := Parse(id);
    if note.Some? && Agrees(taskInfo, note.value.task) && Agrees(revisionInfo, Decimal(note.value.revision))
    then Some(note.value.task) else None
  }

  // ------------------------------------------------------------- decimal digits

  lemma {:induction false} ValueOfDecimal(n: nat)
    ensures Value(Decimal(n)) == n
  {
    if n < 10 {
      assert Decimal(n)[..0] == [];
    } else {
      ValueOfDecimal(n / 10);
      assert Decimal(n)[..|Decimal(n)| - 1] == Decimal(n / 10);
    }
  }

  function Power(k: nat): (p: nat)
    ensures p >= 1
  {
    if k == 0 then 1 else 10 * Power(k - 1)
  }

  lemma {:induction false} DecimalLength(n: nat, k: nat)
    requires n < Power(k) && k >= 1
    ensures |Decimal(n)| <= k
  {
    if n >= 10 {
      assert k > 1;
      DecimalLength(n / 10, k - 1);
    }
  }

  lemma RevisionLength(n: nat)
    requires n < REVISIONS
    ensures |Decimal(n)| <= MAX_DIGITS
  {
    assert Power(5) == 100000;
    assert Power(10) == 100000 * Power(5);
    assert Power(15) == 100000 * Power(10);
    assert Power(20) == 100000 * Power(15);
    DecimalLength(n, 20);
  }

  // ------------------------------------------------------------------ round trip

  lemma {:induction false} LastDotIn(a: string, b: string)
    requires forall i | 0 <= i < |b| :: b[i] != '.'
    ensures LastDot(a + "." + b) == |a|
    decreases |b|
  {
    var s := a + "." + b;
    var k := LastDot(s);
    assert s[|a|] == '.';
    assert forall i | |a| < i < |s| :: s[i] == b[i - |a| - 1];
  }

  /** Parsing what was printed gives the same note back, dots inside its task ID included. */
  lemma ParsePrint(n: Note)
    requires ValidNote(n)
    ensures Parse(Print(n.task, n.revision)) == Some(n)
  {
    var text := Decimal(n.revision);
    var id := Print(n.task, n.revision);
    RevisionLength(n.revision);
    ValueOfDecimal(n.revision);
    var payload := n.task + "." + text;
    assert id == PREFIX + payload;
    assert id[|PREFIX|..] == payload && id[..|PREFIX|] == PREFIX;
    LastDotIn(n.task, text);
    assert payload[..|n.task|] == n.task && payload[|n.task| + 1..] == text;
  }

  /** An identifier is accepted exactly when it is the printed form of a valid note, and then of the one note it
      parses to: nothing else parses, and no two notes share an identifier. */
  lemma ParseIffPrinted(id: string, n: Note)
    ensures Parse(id) == Some(n) <==> ValidNote(n) && id == Print(n.task, n.revision)
  {
    if Parse(id) == Some(n) {
      var payload := id[|PREFIX|..];
      var k := LastDot(payload);
      assert payload == payload[..k] + "." + payload[k + 1..];
      assert id == id[..|PREFIX|] + payload;
    }
    if ValidNote(n) && id == Print(n.task, n.revision) {
      ParsePrint(n);
    }
  }

  /** A click opens a task exactly when the identifier is printed from a valid note of that task and whatever
      else came with it agrees with the note. */
  lemma OpenedIff(id: string, taskInfo: Info, revisionInfo: Info, task: string)
    ensures Opened(id, taskInfo, revisionInfo) == Some(task) <==>
            exists n :: ValidNote(n) && n.task == task && id == Print(n.task, n.revision)
                        && Agrees(taskInfo, n.task) && Agrees(revisionInfo, Decimal(n.revision))
  {
    if Opened(id, taskInfo, revisionInfo) == Some(task) {
      ParseIffPrinted(id, Parse(id).value);
    }
    if n :| ValidNote(n) && n.task == task && id == Print(n.task, n.revision)
            && Agrees(taskInfo, n.task) && Agrees(revisionInfo, Decimal(n.revision)) {
      ParsePrint(n);
    }
  }
}
