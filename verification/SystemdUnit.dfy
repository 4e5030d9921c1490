/** The systemd unit: how the command line is quoted when it is written, and how an update
    reads it back.

    Paths and texts are byte strings here: a byte is a character below 256, and UTF-8 is
    decoded where the program decodes it.
    */
module SystemdUnit {
  import opened Common
  import opened Text

  predicate HasPrefix(s: string, prefix: string) {
    |prefix| <= |s| && s[..|prefix|] == prefix
  }

  // Every occurrence, from the left, without overlap.
  function ReplaceAll(s: string, from: string, to: string): string
    requires from != ""
  {
    if |s| < |from| then s
    else if HasPrefix(s, from) then to + ReplaceAll(s[|from|..], from, to)
    else [s[0]] + ReplaceAll(s[1..], from, to)
  }

  // ---- Rendering ----

  function SystemdArg(value: string): string {
    "\"" + Quoted(value) + "\""
  }

  function Quoted(value: string): string {
    var value := ReplaceAll(value, "%", "%%");
    var value := ReplaceAll(value, "\\", "\\\\");
    ReplaceAll(value, "\"", "\\\"")
  }

  function ExecLine(executable: string, dataDir: string): string {
    SystemdArg(executable) + Options(SystemdArg(dataDir))
  }

  // The plain words between the two paths.
  function Options(rest: string): string {
    " " + "serve" + (" " + "--data-dir" + (" " + rest))
  }

  const UnitSection: seq<string> := [
    "[Unit]", "Description=Surge External Bridge", "After=network-online.target", "Wants=network-online.target", ""]

  const ServiceStart: seq<string> := ["[Service]", "Type=simple"]

  const Above: seq<string> := UnitSection + ServiceStart

  function Below(target: string): seq<string> {
    ["Restart=on-failure", "RestartSec=3", "UMask=0077", "NoNewPrivileges=true", "PrivateTmp=true", "",
     "[Install]", "WantedBy=" + target, ""]
  }

  function UnitLines(executable: string, dataDir: string, target: string): seq<string> {
    Above + ([ExecDirective + ExecLine(executable, dataDir)] + Below(target))
  }

  const ExecDirective := "ExecStart="

  function Join(lines: seq<string>): string
    requires lines != []
  {
    if |lines| == 1 then lines[0] else lines[0] + ("\n" + Join(lines[1..]))
  }

  function UnitText(executable: string, dataDir: string, target: string): string {
    Join(UnitLines(executable, dataDir, target))
  }

  predicate Control(c: char) { c == '\0' || c == '\r' || c == '\n' }

  function InstallTarget(root: bool): string { if root then "multi-user.target" else "default.target" }

  // A unit for paths without control characters.
  function Render(executable: string, dataDir: string, root: bool): Option<string> {
    if executable == "" || dataDir == "" || exists c :: c in executable + dataDir && Control(c) then None
    else Some(UnitText(executable, dataDir, InstallTarget(root)))
  }

  // ---- UTF-8 ----

  predicate ByteIn(s: string, i: nat, low: char, high: char) {
    i < |s| && low <= s[i] <= high
  }

  predicate Continued(s: string, i: nat) { ByteIn(s, i, '\U{80}', '\U{BF}') }

  // The length of the encoded character a byte string begins with, 0 if there is none
  // (section 4 of RFC 3629).
  function RuneSize(s: string): (n: nat)
    requires s != ""
    ensures n <= 4 && n <= |s| && (n == 1 <==> s[0] < '\U{80}')
  {
    var c := s[0];
    if c < '\U{80}' then 1
    else if '\U{C2}' <= c <= '\U{DF}' then if Continued(s, 1) then 2 else 0
    else if c == '\U{E0}' then if ByteIn(s, 1, '\U{A0}', '\U{BF}') && Continued(s, 2) then 3 else 0
    else if c == '\U{ED}' then if ByteIn(s, 1, '\U{80}', '\U{9F}') && Continued(s, 2) then 3 else 0
    else if '\U{E1}' <= c <= '\U{EF}' then if Continued(s, 1) && Continued(s, 2) then 3 else 0
    else if c == '\U{F0}' then if ByteIn(s, 1, '\U{90}', '\U{BF}') && Continued(s, 2) && Continued(s, 3) then 4 else 0
    else if '\U{F1}' <= c <= '\U{F3}' then if Continued(s, 1) && Continued(s, 2) && Continued(s, 3) then 4 else 0
    else if c == '\U{F4}' then if ByteIn(s, 1, '\U{80}', '\U{8F}') && Continued(s, 2) && Continued(s, 3) then 4 else 0
    else 0
  }

  predicate ValidUtf8(s: string) {
    s == "" || (RuneSize(s) > 0 && ValidUtf8(s[RuneSize(s)..]))
  }

  // The bytes of a character.
  function Encode(c: char): (bytes: string)
    ensures 1 <= |bytes| <= 4
  {
    var n := c as int;
    if n < 0x80 then [c]
    else if n < 0x800 then [(0xC0 + n / 64) as char, Tail(n)]
    else if n < 0x10000 then [(0xE0 + n / 4096) as char, Tail(n / 64), Tail(n)]
    else [(0xF0 + n / 262144) as char, Tail(n / 4096), Tail(n / 64), Tail(n)]
  }

  function Tail(n: nat): char { (0x80 + n % 64) as char }

  function EncodeAll(text: string): string {
    if text == "" then "" else Encode(text[0]) + EncodeAll(text[1..])
  }

  lemma EncodedHasSize(c: char, rest: string)
    ensures RuneSize(Encode(c) + rest) == |Encode(c)| && (Encode(c) + rest)[|Encode(c)|..] == rest
  {
    FirstByte(c);
    var s := Encode(c) + rest;
    assert forall i :: 0 <= i < |Encode(c)| ==> s[i] == Encode(c)[i];
  }

  // The first byte tells how many there are, and bounds the second where it has to.
  lemma FirstByte(c: char)
    ensures var e, b := Encode(c), Encode(c)[0];
            match |e| {
              case 1 => b < '\U{80}'
              case 2 => '\U{C2}' <= b <= '\U{DF}' && Continued(e, 1)
              case 3 => '\U{E0}' <= b <= '\U{EF}' && Continued(e, 1) && Continued(e, 2)
                        && (b == '\U{E0}' ==> '\U{A0}' <= e[1]) && (b == '\U{ED}' ==> e[1] <= '\U{9F}')
              case _ => '\U{F0}' <= b <= '\U{F4}' && Continued(e, 1) && Continued(e, 2) && Continued(e, 3)
                        && (b == '\U{F0}' ==> '\U{90}' <= e[1]) && (b == '\U{F4}' ==> e[1] <= '\U{8F}')
            }
  {
  }

  lemma Digit64(high: nat, low: nat)
    requires low < 64
    ensures (high * 64 + low) / 64 == high && (high * 64 + low) % 64 == low
  {
  }

  lemma SizeIsEncoded(s: string) returns (c: char)
    requires s != "" && RuneSize(s) > 0
    ensures s[..RuneSize(s)] == Encode(c)
  {
    match RuneSize(s)
    case 1 => c := s[0];
    case 2 => c := Encoded2(s[0] as int - 0xC0, s[1] as int - 0x80);
    case 3 => c := Encoded3(s[0] as int - 0xE0, s[1] as int - 0x80, s[2] as int - 0x80);
    case _ => c := Encoded4(s[0] as int - 0xF0, s[1] as int - 0x80, s[2] as int - 0x80, s[3] as int - 0x80);
  }

  lemma Encoded2(a: nat, b: nat) returns (c: char)
    requires 2 <= a < 32 && b < 64
    ensures Encode(c) == [(0xC0 + a) as char, (0x80 + b) as char]
  {
    c := (a * 64 + b) as char;
    Digit64(a, b);
  }

  lemma Encoded3(a: nat, b: nat, d: nat) returns (c: char)
    requires a < 16 && b < 64 && d < 64 && (a == 0 ==> b >= 32) && (a == 13 ==> b < 32)
    ensures Encode(c) == [(0xE0 + a) as char, (0x80 + b) as char, (0x80 + d) as char]
  {
    var n := (a * 64 + b) * 64 + d;
    c := n as char;
    Digit64(a * 64 + b, d);
    Digit64(a, b);
    assert n / 4096 == n / 64 / 64;
  }

  lemma Encoded4(a: nat, b: nat, d: nat, e: nat) returns (c: char)
    requires a <= 4 && b < 64 && d < 64 && e < 64 && (a == 0 ==> b >= 16) && (a == 4 ==> b < 16)
    ensures Encode(c) == [(0xF0 + a) as char, (0x80 + b) as char, (0x80 + d) as char, (0x80 + e) as char]
  {
    var n := ((a * 64 + b) * 64 + d) * 64 + e;
    c := n as char;
    Digit64((a * 64 + b) * 64 + d, e);
    Digit64(a * 64 + b, d);
    Digit64(a, b);
    assert n / 4096 == n / 64 / 64 && n / 262144 == n / 64 / 64 / 64;
  }

  // Valid byte strings are exactly the encodings of texts.
  lemma ValidIsEncoded(s: string)
    ensures ValidUtf8(s) <==> exists text :: EncodeAll(text) == s
  {
    if ValidUtf8(s) { var text := TextOf(s); }
    if text :| EncodeAll(text) == s { EncodedIsValid(text); }
  }

  lemma {:induction false} TextOf(s: string) returns (text: string)
    requires ValidUtf8(s)
    ensures EncodeAll(text) == s
  {
    if s == "" {
      text := "";
    } else {
      var c := SizeIsEncoded(s);
      var rest := TextOf(s[RuneSize(s)..]);
      text := [c] + rest;
      assert text[1..] == rest && s == s[..RuneSize(s)] + s[RuneSize(s)..];
    }
  }

  lemma {:induction false} EncodedIsValid(text: string)
    ensures ValidUtf8(EncodeAll(text))
  {
    if text != "" {
      EncodedIsValid(text[1..]);
      EncodedHasSize(text[0], EncodeAll(text[1..]));
    }
  }

  // The replacement character, encoded.
  const Replacement: string := "\U{EF}\U{BF}\U{BD}"

  // Every byte that begins no character is replaced.
  function Sanitised(s: string): string {
    if s == "" then ""
    else if RuneSize(s) == 0 then Replacement + Sanitised(s[1..])
    else s[..RuneSize(s)] + Sanitised(s[RuneSize(s)..])
  }

  lemma {:induction false} SanitisedGrows(s: string)
    ensures |Sanitised(s)| >= |s|
    ensures !ValidUtf8(s) ==> |Sanitised(s)| > |s|
    ensures ValidUtf8(s) ==> Sanitised(s) == s
  {
    if s != "" {
      var n := RuneSize(s);
      if n == 0 { SanitisedGrows(s[1..]); } else { SanitisedGrows(s[n..]); assert s == s[..n] + s[n..]; }
    }
  }

  // Exactly valid UTF-8 is left as it is.
  lemma SanitisedKeepsValid(s: string)
    ensures Sanitised(s) == s <==> ValidUtf8(s)
  {
    SanitisedGrows(s);
  }

  // ---- White space ----

  // The encoding of one character of Unicode white space, n bytes long.
  predicate White(s: string, at: int, n: nat) {
    0 <= at && at + n <= |s| &&
    if n == 1 then s[at] == ' ' || '\t' <= s[at] <= '\r'
    else if n == 2 then s[at] == '\U{C2}' && (s[at + 1] == '\U{85}' || s[at + 1] == '\U{A0}')
    else n == 3 && LongWhite(s[at], s[at + 1], s[at + 2])
  }

  predicate LongWhite(a: char, b: char, c: char) {
    || (a == '\U{E1}' && b == '\U{9A}' && c == '\U{80}')
    || (a == '\U{E2}' && b == '\U{80}' && ('\U{80}' <= c <= '\U{8A}' || c == '\U{A8}' || c == '\U{A9}' || c == '\U{AF}'))
    || (a == '\U{E2}' && b == '\U{81}' && c == '\U{9F}')
    || (a == '\U{E3}' && b == '\U{80}' && c == '\U{80}')
  }

  // The character that n bytes encode, up to three.
  function Code(s: string, at: nat, n: nat): int
    requires at + n <= |s| && 1 <= n <= 3
  {
    if n == 1 then s[at] as int
    else if n == 2 then (s[at] as int - 0xC0) * 64 + (s[at + 1] as int - 0x80)
    else (s[at] as int - 0xE0) * 4096 + (s[at + 1] as int - 0x80) * 64 + (s[at + 2] as int - 0x80)
  }

  // White space in bytes is what is white space in characters.
  lemma WhiteIsSpace(s: string, at: nat, n: nat, c: char)
    requires at + n <= |s| && 1 <= n <= 3 && RuneSize(s[at..at + n]) == n && Code(s, at, n) == c as int
    ensures White(s, at, n) <==> Space(c)
  {
    var rune := s[at..at + n];
    assert forall i :: 0 <= i < n ==> rune[i] == s[at + i];
  }

  function LeadingSpace(s: string): (n: nat)
    ensures n <= |s|
  {
    if White(s, 0, 1) then 1 else if White(s, 0, 2) then 2 else if White(s, 0, 3) then 3 else 0
  }

  function TrailingSpace(s: string): (n: nat)
    ensures n <= |s|
  {
    if White(s, |s| - 1, 1) then 1 else if White(s, |s| - 2, 2) then 2 else if White(s, |s| - 3, 3) then 3 else 0
  }

  function TrimSpace(s: string): string
    decreases |s|
  {
    if LeadingSpace(s) > 0 then TrimSpace(s[LeadingSpace(s)..])
    else if TrailingSpace(s) > 0 then TrimSpace(s[..|s| - TrailingSpace(s)])
    else s
  }

  lemma {:induction false} TrimIsDone(s: string)
    ensures |TrimSpace(s)| <= |s| && LeadingSpace(TrimSpace(s)) == 0 && TrailingSpace(TrimSpace(s)) == 0
    decreases |s|
  {
    if LeadingSpace(s) > 0 { TrimIsDone(s[LeadingSpace(s)..]); }
    else if TrailingSpace(s) > 0 { TrimIsDone(s[..|s| - TrailingSpace(s)]); }
  }

  lemma TrimShrinks(s: string)
    ensures |TrimSpace(s)| <= |s| && TrimSpace(TrimSpace(s)) == TrimSpace(s)
    ensures TrimSpace(s) != "" ==> TrimSpace(s)[0] != ' '
  {
    TrimIsDone(s);
  }

  // Encoded white space only, character after character.
  predicate AllWhite(w: string) {
    w == "" || exists n: nat :: 1 <= n <= 3 && n <= |w| && White(w, 0, n) && AllWhite(w[n..])
  }

  lemma WhiteStays(s: string, t: string, at: nat, n: nat)
    requires |s| >= at + n && |t| >= at + n && s[at..at + n] == t[at..at + n]
    ensures White(s, at, n) <==> White(t, at, n)
  {
    assert forall i :: at <= i < at + n ==> s[i] == s[at..at + n][i - at] && t[i] == t[at..at + n][i - at];
  }

  lemma WhiteMoves(s: string, at: nat, n: nat)
    requires at + n <= |s|
    ensures White(s, at, n) <==> White(s[at..], 0, n)
  {
  }

  lemma {:induction false} WhiteAtEnd(w: string, n: nat)
    requires 1 <= n <= 3 && n <= |w| && White(w, |w| - n, n) && AllWhite(w[..|w| - n])
    ensures AllWhite(w)
    decreases |w|
  {
    var front := w[..|w| - n];
    WhiteMoves(w, |w| - n, n);
    if front == "" {
      assert w[n..] == "";
      WhiteInFront(w, n);
    } else {
      var m: nat :| 1 <= m <= 3 && m <= |front| && White(front, 0, m) && AllWhite(front[m..]);
      MiddleAndEnd(w, m, n);
      WhiteMoves(w, |w| - n, n);
      WhiteMoves(w[m..], |w| - m - n, n);
      WhiteAtEnd(w[m..], n);
      WhiteStays(front, w, 0, m);
      WhiteInFront(w, m);
    }
  }

  lemma WhiteInFront(w: string, m: nat)
    requires 1 <= m <= 3 && m <= |w| && White(w, 0, m) && AllWhite(w[m..])
    ensures AllWhite(w)
  {
  }

  lemma MiddleAndEnd(w: string, m: nat, n: nat)
    requires m + n <= |w|
    ensures w[..|w| - n][m..] == w[m..][..|w| - m - n] && w[m..][|w| - m - n..] == w[|w| - n..] && w[..|w| - n][..m] == w[..m]
  {
  }

  // What is left of a string, between white space.
  ghost predicate Between(s: string, r: string, from: nat, to: nat) {
    from <= to <= |s| && r == s[from..to] && AllWhite(s[..from]) && AllWhite(s[to..])
  }

  // Trimming takes encoded white space from both ends, and leaves none there.
  lemma BytesAreTrimmed(s: string) returns (from: nat, to: nat)
    ensures Between(s, TrimSpace(s), from, to)
    ensures forall n :: 1 <= n <= 3 ==> !White(TrimSpace(s), 0, n) && !White(TrimSpace(s), |TrimSpace(s)| - n, n)
  {
    from, to := TrimmedBetween(s);
    TrimIsDone(s);
    NoneAtEnds(TrimSpace(s));
  }

  lemma NoneAtEnds(s: string)
    requires LeadingSpace(s) == 0 && TrailingSpace(s) == 0
    ensures forall n :: 1 <= n <= 3 ==> !White(s, 0, n) && !White(s, |s| - n, n)
  {
    forall n | 1 <= n <= 3 ensures !White(s, 0, n) && !White(s, |s| - n, n) {
      assert n == 1 || n == 2 || n == 3;
    }
  }

  lemma {:induction false} TrimmedBetween(s: string) returns (from: nat, to: nat)
    ensures Between(s, TrimSpace(s), from, to)
    decreases |s|
  {
    var n, m := LeadingSpace(s), TrailingSpace(s);
    EndsAreWhite(s);
    if n > 0 {
      from, to := TrimmedBetween(s[n..]);
      BehindWhite(s, n, TrimSpace(s[n..]), from, to);
      from, to := from + n, to + n;
    } else if m > 0 {
      from, to := TrimmedBetween(s[..|s| - m]);
      BeforeWhite(s, m, TrimSpace(s[..|s| - m]), from, to);
    } else {
      from, to := 0, |s|;
      WholeBetween(s);
    }
  }

  lemma WholeBetween(s: string)
    ensures Between(s, s, 0, |s|)
  {
    assert s[0..|s|] == s;
  }

  lemma EndsAreWhite(s: string)
    ensures var n := LeadingSpace(s); n > 0 ==> n <= 3 && White(s, 0, n)
    ensures var m := TrailingSpace(s); m > 0 ==> m <= 3 && White(s, |s| - m, m)
  {
  }

  lemma BehindWhite(s: string, n: nat, r: string, from: nat, to: nat)
    requires 1 <= n <= 3 && n <= |s| && White(s, 0, n) && Between(s[n..], r, from, to)
    ensures Between(s, r, from + n, to + n)
  {
    assert s[n..][from..to] == s[from + n..to + n] && s[n..][to..] == s[to + n..];
    var front := s[..from + n];
    assert front[n..] == s[n..][..from] && front[..n] == s[..n];
    WhiteStays(s, front, 0, n);
  }

  lemma PartsBefore(s: string, k: nat, from: nat, to: nat)
    requires from <= to <= k <= |s|
    ensures s[..k][from..to] == s[from..to] && s[..k][..from] == s[..from]
    ensures s[to..][..k - to] == s[..k][to..] && s[to..][k - to..] == s[k..]
  {
  }

  lemma BeforeWhite(s: string, m: nat, r: string, from: nat, to: nat)
    requires 1 <= m <= 3 && m <= |s| && White(s, |s| - m, m) && Between(s[..|s| - m], r, from, to)
    ensures Between(s, r, from, to)
  {
    var k, tail := |s| - m, s[to..];
    PartsBefore(s, k, from, to);
    WhiteMoves(s, k, m);
    WhiteMoves(tail, k - to, m);
    WhiteAtEnd(tail, m);
  }

  // A byte that is no part of white space.
  predicate Solid(c: char) { c < '\U{80}' && c != ' ' && !('\t' <= c <= '\r') }

  lemma SolidIsNotWhite(s: string, at: int, n: nat, i: nat)
    requires at <= i < at + n && i < |s| && Solid(s[i])
    ensures !White(s, at, n)
  {
  }

  // No white space at the end, and something else before it.
  predicate Ended(s: string) {
    TrailingSpace(s) == 0 && exists i :: 0 <= i < |s| && Solid(s[i])
  }

  // White space does not reach over a solid byte.
  lemma TailAlike(x: string, y: string, i: nat, n: nat)
    requires i < |y| && Solid(y[i])
    ensures White(x + y, |x + y| - n, n) <==> White(y, |y| - n, n)
    ensures n >= |y| ==> !White(y, |y| - n, n)
  {
    if n >= |y| {
      assert (x + y)[|x| + i] == y[i];
      SolidIsNotWhite(x + y, |x + y| - n, n, |x| + i);
      SolidIsNotWhite(y, |y| - n, n, i);
    }
  }

  lemma EndsAlike(x: string, y: string)
    requires exists i :: 0 <= i < |y| && Solid(y[i])
    ensures TrailingSpace(x + y) == TrailingSpace(y) < |y|
    ensures Ended(y) ==> Ended(x + y)
  {
    var i :| 0 <= i < |y| && Solid(y[i]);
    TailAlike(x, y, i, 1);
    TailAlike(x, y, i, 2);
    TailAlike(x, y, i, 3);
    assert (x + y)[|x| + i] == y[i];
  }

  lemma SolidEnds(x: string, c: char)
    requires Solid(c)
    ensures Ended(x + [c])
  {
    assert Solid([c][0]);
    EndsAlike(x, [c]);
  }

  lemma NoLeadingSpace(s: string)
    requires s != "" && Solid(s[0])
    ensures LeadingSpace(s) == 0
  {
  }

  lemma TrimKeeps(s: string)
    requires s != "" && Solid(s[0]) && TrailingSpace(s) == 0
    ensures TrimSpace(s) == s && TrimSpace(" " + s) == s
  {
    NoLeadingSpace(s);
    assert TrimSpace(s) == s;
    assert (" " + s)[0] == ' ' && (" " + s)[1..] == s;
  }

  // ---- Reading ----

  function SplitLines(s: string): (lines: seq<string>)
    ensures lines != []
  {
    if s == "" then [""]
    else if s[0] == '\n' then [""] + SplitLines(s[1..])
    else AddToFirst(s[0], SplitLines(s[1..]))
  }

  function AddToFirst(c: char, lines: seq<string>): (r: seq<string>)
    requires lines != []
    ensures r != []
  {
    [[c] + lines[0]] + lines[1..]
  }

  lemma AddToFirstSplits(c: char, a: seq<string>, b: seq<string>)
    requires a != []
    ensures AddToFirst(c, a + b) == AddToFirst(c, a) + b
  {
  }

  // Escapes given by a number are decoded by the library: the text, and how much was read.
  type Numeric = string -> Option<(string, nat)>

  function SimpleEscape(c: char): Option<char> {
    match c
    case 'a' => Some('\U{7}') case 'b' => Some('\U{8}') case 'f' => Some('\U{C}') case 'n' => Some('\n')
    case 'r' => Some('\r') case 't' => Some('\t') case 'v' => Some('\U{B}') case '\\' => Some('\\') case '\"' => Some('\"')
    case _ => None
  }

  // The text between the quotes.
  function Unquote(numeric: Numeric, s: string): Option<string> {
    if s == "" then Some("")
    else if s[0] == '\n' || s[0] == '\"' then None
    else if s[0] >= '\U{80}' then
      if RuneSize(s) == 0 then Prepend(Replacement, Unquote(numeric, s[1..]))
      else Prepend(s[..RuneSize(s)], Unquote(numeric, s[RuneSize(s)..]))
    else if s[0] != '\\' then Prepend([s[0]], Unquote(numeric, s[1..]))
    else if |s| == 1 then None
    else if SimpleEscape(s[1]).Some? then Prepend([SimpleEscape(s[1]).value], Unquote(numeric, s[2..]))
    else match numeric(s[1..])
      case None => None
      case Some((text, n)) => if n == 0 || n > |s| - 1 then None else Prepend(text, Unquote(numeric, s[1 + n..]))
  }

  function Prepend(prefix: string, rest: Option<string>): Option<string> {
    if rest.None? then None else Some(prefix + rest.value)
  }

  // The next quote from `at` that is not escaped, or the end.
  function ClosingQuote(s: string, at: nat, escaped: bool): (end: nat)
    requires at <= |s|
    ensures at <= end <= |s|
    decreases |s| - at
  {
    if at == |s| || (s[at] == '\"' && !escaped) then at else ClosingQuote(s, at + 1, s[at] == '\\' && !escaped)
  }

  function IndexSpace(s: string): (i: nat)
    ensures i <= |s| && (s != "" && s[0] != ' ' ==> i > 0)
  {
    if s == "" || s[0] == ' ' then 0 else 1 + IndexSpace(s[1..])
  }

  function Append(list: seq<string>, rest: Option<seq<string>>): Option<seq<string>> {
    if rest.None? then None else Some(list + rest.value)
  }

  lemma AppendNothing(rest: Option<seq<string>>)
    ensures Append([], rest) == rest
  {
    if rest.Some? { assert [] + rest.value == rest.value; }
  }

  lemma AppendCons(list: seq<string>, word: string, rest: Option<seq<string>>)
    ensures Append(list, Cons(word, rest)) == Append(list + [word], rest)
  {
    if rest.Some? { assert list + ([word] + rest.value) == list + [word] + rest.value; }
  }

  function Cons(word: string, rest: Option<seq<string>>): Option<seq<string>> {
    if rest.None? then None else Some([word] + rest.value)
  }

  // The first word of a trimmed line, and what follows it.
  function NextWord(numeric: Numeric, t: string): (next: Option<(string, string)>)
    requires t != "" && t[0] != ' '
    ensures next.Some? ==> |next.value.1| < |t|
  {
    if t[0] != '\"' then Some((t[..IndexSpace(t)], t[IndexSpace(t)..]))
    else
      var end := ClosingQuote(t, 1, false);
      if end == |t| then None
      else match Unquote(numeric, t[1..end])
        case None => None
        case Some(word) => Some((ReplaceAll(word, "%%", "%"), t[end + 1..]))
  }

  function Words(numeric: Numeric, s: string): Option<seq<string>>
    decreases |s|
  {
    TrimShrinks(s);
    if TrimSpace(s) == "" then Some([])
    else match NextWord(numeric, TrimSpace(s))
      case None => None
      case Some((word, rest)) => Cons(word, Words(numeric, rest))
  }

  lemma WordsOfTrimmed(numeric: Numeric, s: string)
    ensures TrimSpace(TrimSpace(s)) == TrimSpace(s) && Words(numeric, TrimSpace(s)) == Words(numeric, s)
  {
    TrimShrinks(s);
  }

  method FindClosingQuote(s: string) returns (end: nat)
    requires s != ""
    ensures end == ClosingQuote(s, 1, false) && 1 <= end <= |s|
  {
    end := 1;
    var escaped := false;
    while end < |s|
      invariant 1 <= end <= |s| && ClosingQuote(s, end, escaped) == ClosingQuote(s, 1, false)
    {
      if s[end] == '\"' && !escaped { break; }
      escaped := s[end] == '\\' && !escaped;
      end := end + 1;
    }
  }

  // Reading a word and trimming what follows.
  lemma WordRead(numeric: Numeric, list: seq<string>, s: string, word: string, rest: string)
    requires s != "" && TrimSpace(s) == s && s[0] != ' ' && NextWord(numeric, s) == Some((word, rest))
    ensures Append(list, Words(numeric, s)) == Append(list + [word], Words(numeric, TrimSpace(rest)))
    ensures TrimSpace(TrimSpace(rest)) == TrimSpace(rest) && |TrimSpace(rest)| < |s|
  {
    TrimShrinks(rest);
    WordsOfTrimmed(numeric, rest);
    AppendCons(list, word, Words(numeric, rest));
  }

  lemma PlainRead(numeric: Numeric, list: seq<string>, s: string)
    requires s != "" && TrimSpace(s) == s && s[0] != '\"'
    ensures var i := IndexSpace(s);
            && Append(list, Words(numeric, s)) == Append(list + [s[..i]], Words(numeric, TrimSpace(s[i..])))
            && TrimSpace(TrimSpace(s[i..])) == TrimSpace(s[i..]) && |TrimSpace(s[i..])| < |s|
  {
    TrimShrinks(s);
    WordRead(numeric, list, s, s[..IndexSpace(s)], s[IndexSpace(s)..]);
  }

  lemma QuotedRead(numeric: Numeric, list: seq<string>, s: string, end: nat)
    requires s != "" && TrimSpace(s) == s && s[0] == '\"' && end == ClosingQuote(s, 1, false)
    ensures end == |s| || Unquote(numeric, s[1..end]) == None ==> Words(numeric, s) == None
    ensures end < |s| && Unquote(numeric, s[1..end]).Some? ==>
              var word, rest := ReplaceAll(Unquote(numeric, s[1..end]).value, "%%", "%"), s[end + 1..];
              && Append(list, Words(numeric, s)) == Append(list + [word], Words(numeric, TrimSpace(rest)))
              && TrimSpace(TrimSpace(rest)) == TrimSpace(rest) && |TrimSpace(rest)| < |s|
  {
    if end < |s| && Unquote(numeric, s[1..end]).Some? {
      WordRead(numeric, list, s, ReplaceAll(Unquote(numeric, s[1..end]).value, "%%", "%"), s[end + 1..]);
    }
  }

  method ParseSystemdArgs(numeric: Numeric, line: string) returns (args: Option<seq<string>>)
    ensures args == Words(numeric, line)
  {
    var s, list := TrimSpace(line), [];
    WordsOfTrimmed(numeric, line);
    AppendNothing(Words(numeric, s));
    while s != ""
      invariant TrimSpace(s) == s
      invariant Words(numeric, line) == Append(list, Words(numeric, s))
      decreases |s|
    {
      if s[0] != '\"' {
        PlainRead(numeric, list, s);
        var i := IndexSpace(s);
        list, s := list + [s[..i]], TrimSpace(s[i..]);
      } else {
        var end := FindClosingQuote(s);
        QuotedRead(numeric, list, s, end);
        if end == |s| { return None; }
        var word := Unquote(numeric, s[1..end]);
        if word.None? { return None; }
        list, s := list + [ReplaceAll(word.value, "%%", "%")], TrimSpace(s[end + 1..]);
      }
    }
    assert list + [] == list;
    args := Some(list);
  }

  // The command line of a unit: None without one, with several, or when it is not understood.
  function Directive(lines: seq<string>, line: string): Option<string> {
    if lines == [] then Some(line)
    else if !HasPrefix(lines[0], ExecDirective) then Directive(lines[1..], line)
    else if line != "" then None
    else Directive(lines[1..], lines[0][|ExecDirective|..])
  }

  function Definition(numeric: Numeric, content: string): Option<(string, string)> {
    match Directive(SplitLines(content), "")
    case None => None
    case Some(line) =>
      match Words(numeric, line)
      case None => None
      case Some(args) =>
        if |args| != 4 || args[1] != "serve" || args[2] != "--data-dir" then None else Some((args[0], args[3]))
  }

  // A line that starts the service, and what it starts.
  ghost predicate Starts(line: string) { |line| >= 10 && line[..10] == "ExecStart=" }

  // The i-th line starts the service with these paths, no later one starts it, and earlier ones
  // start nothing.
  ghost predicate Defines(numeric: Numeric, lines: seq<string>, i: nat, executable: string, dataDir: string) {
    && i < |lines| && Starts(lines[i]) && Words(numeric, lines[i][10..]) == Some([executable, "serve", "--data-dir", dataDir])
    && (forall j :: 0 <= j < i && Starts(lines[j]) ==> lines[j] == "ExecStart=")
    && (forall j :: i < j < |lines| ==> !Starts(lines[j]))
  }

  // A unit is understood exactly when one of its lines defines the service.
  lemma DefinitionExactly(numeric: Numeric, content: string, executable: string, dataDir: string)
    ensures Definition(numeric, content) == Some((executable, dataDir))
            <==> exists i: nat :: Defines(numeric, SplitLines(content), i, executable, dataDir)
  {
    if Definition(numeric, content) == Some((executable, dataDir)) { var i := DefiningLine(numeric, content, executable, dataDir); }
    if i: nat :| Defines(numeric, SplitLines(content), i, executable, dataDir) {
      NothingToRead(numeric);
      DirectiveOf(SplitLines(content), i);
    }
  }

  lemma DefiningLine(numeric: Numeric, content: string, executable: string, dataDir: string) returns (i: nat)
    requires Definition(numeric, content) == Some((executable, dataDir))
    ensures Defines(numeric, SplitLines(content), i, executable, dataDir)
  {
    var line := Directive(SplitLines(content), "").value;
    var args := Words(numeric, line).value;
    assert args == [args[0], args[1], args[2], args[3]];
    NothingToRead(numeric);
    i := DirectiveFound(SplitLines(content), line);
  }

  lemma NothingToRead(numeric: Numeric)
    ensures Words(numeric, "") == Some([])
  {
  }

  lemma {:induction false} DirectiveFound(lines: seq<string>, line: string) returns (i: nat)
    requires line != "" && Directive(lines, "") == Some(line)
    ensures i < |lines| && Starts(lines[i]) && lines[i][10..] == line
    ensures forall j :: 0 <= j < i && Starts(lines[j]) ==> lines[j] == "ExecStart="
    ensures forall j :: i < j < |lines| ==> !Starts(lines[j])
  {
    if Starts(lines[0]) && lines[0] != "ExecStart=" {
      i := 0;
      assert lines[0] == lines[0][..10] + lines[0][10..];
      LaterStartsNothing(lines[1..], lines[0][10..]);
    } else {
      i := DirectiveFound(lines[1..], line);
      i := i + 1;
    }
  }

  lemma {:induction false} LaterStartsNothing(lines: seq<string>, line: string)
    requires line != "" && Directive(lines, line).Some?
    ensures Directive(lines, line) == Some(line) && forall j :: 0 <= j < |lines| ==> !Starts(lines[j])
  {
    if lines != [] { LaterStartsNothing(lines[1..], line); }
  }

  lemma {:induction false} DirectiveOf(lines: seq<string>, i: nat)
    requires i < |lines| && Starts(lines[i]) && lines[i][10..] != ""
    requires forall j :: 0 <= j < i && Starts(lines[j]) ==> lines[j] == "ExecStart="
    requires forall j :: i < j < |lines| ==> !Starts(lines[j])
    ensures Directive(lines, "") == Some(lines[i][10..])
  {
    if i > 0 {
      assert Starts(lines[0]) ==> lines[0][10..] == "";
      DirectiveOf(lines[1..], i - 1);
    } else {
      assert HasPrefix(lines[0], ExecDirective);
      NoneStarts(lines[1..], lines[0][10..]);
    }
  }

  lemma {:induction false} NoneStarts(lines: seq<string>, line: string)
    requires forall j :: 0 <= j < |lines| ==> !Starts(lines[j])
    ensures Directive(lines, line) == Some(line)
  {
    if lines != [] { NoneStarts(lines[1..], line); }
  }

  // Lines are what stands between line feeds.
  lemma {:induction false} LinesAreJoined(s: string)
    ensures Join(SplitLines(s)) == s && forall line :: line in SplitLines(s) ==> '\n' !in line
  {
    if s != "" {
      var rest := SplitLines(s[1..]);
      LinesAreJoined(s[1..]);
      if s[0] == '\n' {
        assert ([""] + rest)[1..] == rest && "" + ("\n" + s[1..]) == s;
      } else {
        FirstLineGrows(s[0], rest);
        assert [s[0]] + s[1..] == s;
      }
    }
  }

  lemma FirstLineGrows(c: char, lines: seq<string>)
    requires lines != [] && c != '\n' && forall line :: line in lines ==> '\n' !in line
    ensures Join(AddToFirst(c, lines)) == [c] + Join(lines) && forall line :: line in AddToFirst(c, lines) ==> '\n' !in line
  {
    var more := AddToFirst(c, lines);
    assert lines[0] in lines;
    if |lines| > 1 {
      assert more[1..] == lines[1..];
      assert [c] + lines[0] + ("\n" + Join(lines[1..])) == [c] + (lines[0] + ("\n" + Join(lines[1..])));
    }
  }

  method UpdateDefinition(numeric: Numeric, content: string) returns (definition: Option<(string, string)>)
    ensures definition == Definition(numeric, content)
  {
    var lines, line := SplitLines(content), "";
    for i := 0 to |lines|
      invariant Directive(lines, "") == Directive(lines[i..], line)
    {
      if HasPrefix(lines[i], ExecDirective) {
        if line != "" { return None; }
        line := lines[i][|ExecDirective|..];
      }
      assert lines[i..][1..] == lines[i + 1..];
    }
    var args := ParseSystemdArgs(numeric, line);
    if args.None? || |args.value| != 4 || args.value[1] != "serve" || args.value[2] != "--data-dir" { return None; }
    definition := Some((args.value[0], args.value[3]));
  }

  // ---- Quoting is undone by reading ----

  function EscapeChar(c: char): string {
    if c == '%' then "%%" else if c == '\\' then "\\\\" else if c == '\"' then "\\\"" else [c]
  }

  // All three replacements at once.
  function Escape(s: string): string {
    if s == "" then "" else EscapeChar(s[0]) + Escape(s[1..])
  }

  function Doubled(s: string): string {
    if s == "" then "" else DoubledChar(s[0]) + Doubled(s[1..])
  }

  function DoubledChar(c: char): string {
    if c == '%' then "%%" else [c]
  }

  lemma {:induction false} ReplaceSplits(a: string, b: string, c: char, to: string)
    ensures ReplaceAll(a + b, [c], to) == ReplaceAll(a, [c], to) + ReplaceAll(b, [c], to)
  {
    if a == "" {
      assert a + b == b;
    } else {
      assert (a + b)[1..] == a[1..] + b;
      ReplaceSplits(a[1..], b, c, to);
    }
  }

  // The three replacements in sequence do not interfere.
  lemma {:induction false} QuotingIsPerCharacter(s: string)
    ensures Quoted(s) == Escape(s)
  {
    if s != "" {
      var head, tail := [s[0]], s[1..];
      assert s == head + tail;
      QuotingIsPerCharacter(tail);
      var a, b := ReplaceAll(head, "%", "%%"), ReplaceAll(tail, "%", "%%");
      ReplaceSplits(head, tail, '%', "%%");
      ReplaceSplits(a, b, '\\', "\\\\");
      var c, d := ReplaceAll(a, "\\", "\\\\"), ReplaceAll(b, "\\", "\\\\");
      ReplaceSplits(c, d, '\"', "\\\"");
      HeadIsEscaped(s[0]);
    }
  }

  lemma {:induction false} NothingToReplace(s: string, c: char, to: string)
    requires c !in s
    ensures ReplaceAll(s, [c], to) == s
  {
    if s != "" {
      assert s[..1][0] == s[0];
      NothingToReplace(s[1..], c, to);
    }
  }

  lemma HeadIsEscaped(c: char)
    ensures Quoted([c]) == EscapeChar(c)
  {
    var s := [c];
    if c == '%' {
      assert ReplaceAll(s, "%", "%%") == "%%";
      NothingToReplace("%%", '\\', "\\\\");
      NothingToReplace("%%", '\"', "\\\"");
    } else {
      NothingToReplace(s, '%', "%%");
      if c == '\\' {
        assert ReplaceAll(s, "\\", "\\\\") == "\\\\";
        NothingToReplace("\\\\", '\"', "\\\"");
      } else {
        NothingToReplace(s, '\\', "\\\\");
        if c == '\"' {
          assert ReplaceAll(s, "\"", "\\\"") == "\\\"";
        } else {
          NothingToReplace(s, '\"', "\\\"");
        }
      }
    }
  }

  // The closing quote of a quoted text is the one after it; without it there is none.
  lemma {:induction false} ScanSkipsEscapes(before: string, s: string, after: string)
    requires after == "" || after[0] == '\"'
    ensures ClosingQuote(before + Escape(s) + after, |before|, false) == |before| + |Escape(s)|
    decreases |s|
  {
    var text := before + Escape(s) + after;
    if s == "" {
      assert text == before + after;
    } else {
      var head := EscapeChar(s[0]);
      assert text == (before + head) + Escape(s[1..]) + after;
      ScanSkipsEscapes(before + head, s[1..], after);
      assert text[|before|] == head[0];
      if |head| == 2 { assert text[|before| + 1] == head[1]; }
    }
  }

  lemma UnquoteHead(numeric: Numeric, c: char, tail: string)
    requires c < '\U{80}'
    ensures Unquote(numeric, EscapeChar(c) + tail) == if c == '\n' then None else Prepend(DoubledChar(c), Unquote(numeric, tail))
  {
    if c == '%' { UnquotePercent(numeric, tail); } else { assert (EscapeChar(c) + tail)[|EscapeChar(c)|..] == tail; }
  }

  // Bytes above the ASCII range are not escaped.
  lemma {:induction false} EscapeKeepsHigh(s: string, n: nat)
    requires n <= |s| && forall i :: 0 <= i < n ==> s[i] >= '\U{80}'
    ensures Escape(s) == s[..n] + Escape(s[n..])
  {
    if n > 0 {
      assert EscapeChar(s[0]) == [s[0]];
      EscapeKeepsHigh(s[1..], n - 1);
      Behind(s, n, Escape(s[n..]));
    } else {
      assert s[..0] + Escape(s[0..]) == Escape(s);
    }
  }

  lemma Behind(s: string, n: nat, rest: string)
    requires 0 < n <= |s|
    ensures s[1..][n - 1..] == s[n..] && [s[0]] + (s[1..][..n - 1] + rest) == s[..n] + rest
  {
  }

  lemma {:induction false} DoubledKeepsHigh(a: string, b: string)
    requires forall i :: 0 <= i < |a| ==> a[i] >= '\U{80}'
    ensures Doubled(a + b) == a + Doubled(b)
  {
    if a == "" {
      assert a + b == b;
    } else {
      DoubledKeepsHigh(a[1..], b);
      assert (a + b)[1..] == a[1..] + b && a == [a[0]] + a[1..];
    }
  }

  // The bytes of one character are all above the ASCII range.
  lemma RuneIsHigh(s: string)
    requires s != "" && s[0] >= '\U{80}'
    ensures forall i :: 0 <= i < RuneSize(s) ==> s[i] >= '\U{80}'
  {
  }

  // How many bytes above the ASCII range a string begins with, up to four.
  function HighBytes(s: string, most: nat): (m: nat)
    ensures m <= most && m <= |s| && forall i :: 0 <= i < m ==> s[i] >= '\U{80}'
    ensures m < most && m < |s| ==> s[m] < '\U{80}'
  {
    if most == 0 || s == "" || s[0] < '\U{80}' then 0 else 1 + HighBytes(s[1..], most - 1)
  }

  // Two strings that agree as long as their bytes are above the ASCII range begin with the
  // same character.
  lemma SameRune(s: string, e: string, m: nat)
    requires s != "" && e != "" && s[0] >= '\U{80}' && 0 < m <= 4 && m <= |s| && m <= |e| && s[..m] == e[..m]
    requires m < 4 ==> (m < |s| ==> s[m] < '\U{80}') && (m < |e| ==> e[m] < '\U{80}')
    ensures RuneSize(s) == RuneSize(e)
  {
    assert forall i :: 0 <= i < m ==> s[..m][i] == e[..m][i];
    assert forall i :: 0 <= i < m ==> s[i] == e[i];
  }

  lemma EscapeKeepsRune(s: string)
    requires s != "" && s[0] >= '\U{80}'
    ensures Escape(s) != "" && Escape(s)[0] == s[0] && RuneSize(Escape(s)) == RuneSize(s)
  {
    var m := HighBytes(s, 4);
    EscapeKeepsHigh(s, m);
    var e, rest := Escape(s), Escape(s[m..]);
    assert m > 0 && e[..m] == s[..m] && forall i :: 0 <= i < m ==> e[i] == s[i];
    if m < 4 && m < |e| {
      assert e[m] == rest[0];
      assert s[m..] != "" && rest[0] == EscapeChar(s[m])[0];
    }
    SameRune(s, e, m);
  }

  // One character above the ASCII range, or one byte that begins none.
  lemma UnquoteRune(numeric: Numeric, s: string)
    requires s != "" && s[0] >= '\U{80}'
    ensures var n := if RuneSize(s) == 0 then 1 else RuneSize(s);
            Unquote(numeric, Escape(s))
            == Prepend(if RuneSize(s) == 0 then Replacement else s[..n], Unquote(numeric, Escape(s[n..])))
  {
    var n := if RuneSize(s) == 0 then 1 else RuneSize(s);
    RuneIsHigh(s);
    EscapeKeepsRune(s);
    EscapeKeepsHigh(s, n);
    assert Escape(s)[..n] == s[..n] && Escape(s)[n..] == Escape(s[n..]);
  }

  lemma UnquotePercent(numeric: Numeric, tail: string)
    ensures Unquote(numeric, "%%" + tail) == Prepend("%%", Unquote(numeric, tail))
  {
    OnePercent(numeric, tail);
    OnePercent(numeric, "%" + tail);
    assert "%" + ("%" + tail) == "%%" + tail;
    if Unquote(numeric, tail).Some? { assert "%" + ("%" + Unquote(numeric, tail).value) == "%%" + Unquote(numeric, tail).value; }
  }

  lemma OnePercent(numeric: Numeric, tail: string)
    ensures Unquote(numeric, "%" + tail) == Prepend("%", Unquote(numeric, tail))
  {
    assert ("%" + tail)[1..] == tail && ("%" + tail)[0] == '%';
  }

  // What unquoting makes of an escaped text.
  function Unquoted(s: string): Option<string> {
    if '\n' in s then None else Some(Doubled(Sanitised(s)))
  }

  lemma UnquotedByte(s: string)
    requires s != "" && s[0] < '\U{80}'
    ensures Unquoted(s) == if s[0] == '\n' then None else Prepend(DoubledChar(s[0]), Unquoted(s[1..]))
  {
    assert s[..1] == [s[0]] && s == [s[0]] + s[1..];
    assert Sanitised(s)[0] == s[0] && Sanitised(s)[1..] == Sanitised(s[1..]);
  }

  lemma UnquotedRune(s: string)
    requires s != "" && s[0] >= '\U{80}'
    ensures var n := if RuneSize(s) == 0 then 1 else RuneSize(s);
            Unquoted(s) == Prepend(if RuneSize(s) == 0 then Replacement else s[..n], Unquoted(s[n..]))
  {
    var n := if RuneSize(s) == 0 then 1 else RuneSize(s);
    RuneIsHigh(s);
    DoubledKeepsHigh(if RuneSize(s) == 0 then Replacement else s[..n], Sanitised(s[n..]));
    assert s == s[..n] + s[n..];
    assert forall i :: 0 <= i < n ==> s[..n][i] != '\n';
  }

  // Unquoting undoes the escape, but for the doubled percent signs and bytes that are no UTF-8.
  lemma {:induction false} UnquoteUndoesEscape(numeric: Numeric, s: string)
    ensures Unquote(numeric, Escape(s)) == if '\n' in s then None else Some(Doubled(Sanitised(s)))
    decreases |s|
  {
    if s != "" {
      UnquoteUndoesEscape(numeric, s[if s[0] < '\U{80}' || RuneSize(s) == 0 then 1 else RuneSize(s)..]);
      if s[0] < '\U{80}' {
        UnquoteHead(numeric, s[0], Escape(s[1..]));
        UnquotedByte(s);
      } else {
        UnquoteRune(numeric, s);
        UnquotedRune(s);
      }
    }
  }

  // Runs of doubled percent signs collapse to the original.
  lemma {:induction false} PercentCollapses(s: string)
    ensures ReplaceAll(Doubled(s), "%%", "%") == s
  {
    if s != "" {
      PercentCollapses(s[1..]);
      if s[0] == '%' {
        assert Doubled(s)[2..] == Doubled(s[1..]) && Doubled(s)[..2] == "%%";
      } else {
        assert Doubled(s)[1..] == Doubled(s[1..]);
        assert !HasPrefix(Doubled(s), "%%") by { assert Doubled(s)[0] == s[0]; }
        if |Doubled(s)| < 2 { assert Doubled(s[1..]) == ""; DoubledIsLonger(s[1..]); }
      }
    }
  }

  lemma {:induction false} DoubledIsLonger(s: string)
    ensures |Doubled(s)| >= |s|
  {
    if s != "" { DoubledIsLonger(s[1..]); }
  }

  lemma QuotedIsNext(numeric: Numeric, s: string, rest: string)
    ensures NextWord(numeric, SystemdArg(s) + rest) == if '\n' in s then None else Some((Sanitised(s), rest))
  {
    QuotedSpan(s, rest);
    UnquoteUndoesEscape(numeric, s);
    PercentCollapses(Sanitised(s));
  }

  // Where a quoted word ends.
  lemma QuotedSpan(s: string, rest: string)
    ensures var line, end := SystemdArg(s) + rest, 1 + |Escape(s)|;
            && line[0] == '\"' && ClosingQuote(line, 1, false) == end < |line|
            && line[1..end] == Escape(s) && line[end + 1..] == rest
  {
    QuotingIsPerCharacter(s);
    var line := SystemdArg(s) + rest;
    assert line == "\"" + Escape(s) + ("\"" + rest);
    ScanSkipsEscapes("\"", s, "\"" + rest);
  }

  lemma ArgumentEnds(s: string)
    ensures Ended(SystemdArg(s)) && Solid(SystemdArg(s)[0])
  {
    SolidEnds("\"" + Quoted(s), '\"');
  }

  // Reading one quoted word off the front of a line.
  lemma QuotedWord(numeric: Numeric, s: string, rest: string)
    requires rest == "" || Ended(rest)
    ensures Words(numeric, SystemdArg(s) + rest) == if '\n' in s then None else Cons(Sanitised(s), Words(numeric, rest))
    ensures Words(numeric, " " + (SystemdArg(s) + rest)) == Words(numeric, SystemdArg(s) + rest)
  {
    var line := SystemdArg(s) + rest;
    QuotedIsNext(numeric, s, rest);
    ArgumentEnds(s);
    if rest == "" { assert line == SystemdArg(s); } else { EndsAlike(SystemdArg(s), rest); }
    TrimKeeps(line);
  }

  lemma PlainWord(numeric: Numeric, word: string, rest: string)
    requires Plain(word) && Ended(rest) && rest[0] == ' '
    ensures Words(numeric, " " + word + rest) == Cons(word, Words(numeric, rest))
  {
    assert " " + word + rest == " " + (word + rest);
    PlainStarts(word, rest);
    PlainIsNext(numeric, word, rest);
  }

  lemma PlainStarts(word: string, rest: string)
    requires Plain(word) && Ended(rest)
    ensures TrimSpace(" " + (word + rest)) == word + rest && TrimSpace(word + rest) == word + rest
  {
    EndsAlike(word, rest);
    TrimKeeps(word + rest);
  }

  lemma PlainIsNext(numeric: Numeric, word: string, rest: string)
    requires Plain(word) && rest != "" && rest[0] == ' '
    ensures NextWord(numeric, word + rest) == Some((word, rest))
  {
    var line := word + rest;
    SpaceEndsWord(word, rest);
    assert line[..|word|] == word && line[|word|..] == rest;
  }

  lemma {:induction false} SpaceEndsWord(word: string, rest: string)
    requires rest != "" && rest[0] == ' ' && forall i :: 0 <= i < |word| ==> Solid(word[i])
    ensures IndexSpace(word + rest) == |word|
  {
    if word == "" {
      assert word + rest == rest;
    } else {
      assert (word + rest)[1..] == word[1..] + rest;
      SpaceEndsWord(word[1..], rest);
    }
  }

  // ---- The command line ----

  predicate Plain(word: string) {
    word != "" && word[0] != '\"' && forall i :: 0 <= i < |word| ==> Solid(word[i])
  }

  lemma WordsOfOptions(numeric: Numeric, rest: string)
    requires Ended(rest)
    ensures Words(numeric, Options(rest)) == Cons("serve", Cons("--data-dir", Words(numeric, " " + rest)))
    ensures Ended(Options(rest))
  {
    OptionsArePlain();
    TwoWords(numeric, "serve", "--data-dir", rest);
  }

  lemma OptionsArePlain()
    ensures Plain("serve") && Plain("--data-dir")
  {
  }

  lemma TwoWords(numeric: Numeric, first: string, second: string, rest: string)
    requires Plain(first) && Plain(second) && Ended(rest)
    ensures Words(numeric, " " + first + (" " + second + (" " + rest))) == Cons(first, Cons(second, Words(numeric, " " + rest)))
    ensures Ended(" " + first + (" " + second + (" " + rest)))
  {
    var tail := " " + rest;
    EndsAlike(" ", rest);
    EndsAlike(" " + second, tail);
    EndsAlike(" " + first, " " + second + tail);
    PlainWord(numeric, second, tail);
    PlainWord(numeric, first, " " + second + tail);
  }

  // The command line reads back as its four arguments, with what is no UTF-8 replaced, unless a
  // path has a line break.
  lemma ExecLineRoundTrip(numeric: Numeric, executable: string, dataDir: string)
    ensures Words(numeric, ExecLine(executable, dataDir))
            == if '\n' in executable || '\n' in dataDir then None
               else Some([Sanitised(executable), "serve", "--data-dir", Sanitised(dataDir)])
  {
    var dir := SystemdArg(dataDir);
    assert dir + "" == dir;
    ArgumentEnds(dataDir);
    QuotedWord(numeric, dataDir, "");
    WordsOfOptions(numeric, dir);
    QuotedWord(numeric, executable, Options(dir));
    FourWords(Sanitised(executable), Sanitised(dataDir));
  }

  lemma FourWords(a: string, d: string)
    ensures Cons(a, Cons("serve", Cons("--data-dir", Cons(d, Some([]))))) == Some([a, "serve", "--data-dir", d])
    ensures Cons(a, None) == None && Cons(a, Cons("serve", Cons("--data-dir", None))) == None
  {
    var rest := ["--data-dir", d];
    assert [d] + [] == [d] && ["--data-dir"] + [d] == rest;
    assert ["serve"] + rest == ["serve", "--data-dir", d];
    assert [a] + ["serve", "--data-dir", d] == [a, "serve", "--data-dir", d];
  }

  // A quoted text that is not closed.
  predicate Unclosed(text: string) {
    ClosingQuote("\"" + text, 1, false) == 1 + |text|
  }

  lemma EscapedIsUnclosed(s: string)
    ensures Unclosed(Escape(s))
  {
    ScanSkipsEscapes("\"", s, "");
    assert "\"" + Escape(s) + "" == "\"" + Escape(s);
  }

  lemma {:induction false} PrefixScan(s: string, at: nat, escaped: bool, k: nat)
    requires at <= k <= |s| && ClosingQuote(s, at, escaped) == |s|
    ensures ClosingQuote(s[..k], at, escaped) == k
    decreases |s| - at
  {
    if at < k {
      assert s[..k][at] == s[at];
      PrefixScan(s, at + 1, s[at] == '\\' && !escaped, k);
    }
  }

  // Cutting an unclosed text leaves it unclosed.
  lemma CutIsUnclosed(text: string, k: nat)
    requires Unclosed(text) && k <= |text|
    ensures Unclosed(text[..k])
  {
    PrefixScan("\"" + text, 1, false, k + 1);
    assert ("\"" + text)[..k + 1] == "\"" + text[..k];
  }

  // A quote that is never closed is refused.
  lemma UnfinishedWord(numeric: Numeric, text: string)
    requires Unclosed(text) && Ended("\"" + text)
    ensures Words(numeric, "\"" + text) == None && Words(numeric, " " + ("\"" + text)) == None
  {
    TrimKeeps("\"" + text);
  }

  lemma {:induction false} EscapeSplits(a: string, b: string)
    ensures Escape(a + b) == Escape(a) + Escape(b)
  {
    if a == "" {
      assert a + b == b;
    } else {
      assert (a + b)[1..] == a[1..] + b;
      EscapeSplits(a[1..], b);
    }
  }

  // Trimming a cut line stops at the last solid byte, here the opening quote, at the latest.
  lemma {:induction false} TrimCut(front: string, text: string) returns (k: nat)
    requires front != "" && Solid(front[0]) && Solid(front[|front| - 1])
    ensures k <= |text| && TrimSpace(front + text) == front + text[..k] && Ended(front + text[..k])
    decreases |text|
  {
    var line := front + text;
    assert line[0] == front[0];
    SolidBefore(front, text);
    TrimStep(line);
    var m := |text| - TrailingSpace(line);
    CutText(front, text, m);
    if m == |text| {
      k := m;
      assert Solid(line[0]);
    } else {
      k := TrimCut(front, text[..m]);
      assert text[..m][..k] == text[..k];
    }
  }

  lemma TrimStep(s: string)
    requires s != "" && Solid(s[0])
    ensures TrimSpace(s) == if TrailingSpace(s) == 0 then s else TrimSpace(s[..|s| - TrailingSpace(s)])
  {
    NoLeadingSpace(s);
  }

  lemma CutText(front: string, text: string, k: nat)
    requires k <= |text|
    ensures (front + text)[..|front| + k] == front + text[..k]
  {
  }

  lemma SolidBefore(front: string, text: string)
    requires front != "" && Solid(front[|front| - 1])
    ensures TrailingSpace(front + text) <= |text|
  {
    var y := [front[|front| - 1]] + text;
    assert y[0] == front[|front| - 1] && front + text == front[..|front| - 1] + y;
    EndsAlike(front[..|front| - 1], y);
  }

  function Open(s: string): string { "\"" + Escape(s) }

  // A path with a line break leaves an unfinished command line.
  lemma CutExecutable(numeric: Numeric, s: string)
    ensures Words(numeric, Open(s)) == None
  {
    var k := TrimCut("\"", Escape(s));
    EscapedIsUnclosed(s);
    CutIsUnclosed(Escape(s), k);
    UnfinishedWord(numeric, Escape(s)[..k]);
    WordsOfTrimmed(numeric, Open(s));
  }

  lemma CutDataDir(numeric: Numeric, executable: string, s: string)
    ensures Words(numeric, SystemdArg(executable) + Options(Open(s))) == None
  {
    var front := SystemdArg(executable) + Options("\"");
    assert front[0] == '\"' && front[|front| - 1] == '\"';
    FrontOf(executable, Escape(s));
    var k := TrimCut(front, Escape(s));
    FrontOf(executable, Escape(s)[..k]);
    WordsOfTrimmed(numeric, front + Escape(s));
    EscapedIsUnclosed(s);
    CutIsUnclosed(Escape(s), k);
    CutAtWord(numeric, executable, Escape(s)[..k]);
  }

  lemma FrontOf(executable: string, text: string)
    ensures SystemdArg(executable) + Options("\"" + text) == (SystemdArg(executable) + Options("\"")) + text
  {
  }

  lemma CutAtWord(numeric: Numeric, executable: string, text: string)
    requires Unclosed(text) && Ended((SystemdArg(executable) + Options("\"")) + text)
    ensures Words(numeric, SystemdArg(executable) + Options("\"" + text)) == None
  {
    var rest := "\"" + text;
    StillEnded(SystemdArg(executable) + Options("\""), text);
    UnfinishedWord(numeric, text);
    assert Words(numeric, " " + rest) == None;
    WordsOfOptions(numeric, rest);
    assert Words(numeric, Options(rest)) == None;
    QuotedWord(numeric, executable, Options(rest));
  }

  // What follows the last opening quote decides how a line ends.
  lemma StillEnded(front: string, text: string)
    requires front != "" && front[|front| - 1] == '\"' && Ended(front + text)
    ensures Ended("\"" + text)
  {
    var y := "\"" + text;
    assert y[0] == '\"' && front + text == front[..|front| - 1] + y;
    EndsAlike(front[..|front| - 1], y);
  }

  // ---- The unit ----

  function Broken(head: string, rest: string): string { head + ("\n" + rest) }

  lemma {:induction false} SplitAtBreak(a: string, b: string)
    ensures SplitLines(Broken(a, b)) == SplitLines(a) + SplitLines(b)
  {
    if a == "" {
      assert Broken(a, b)[1..] == b;
    } else {
      assert Broken(a, b)[1..] == Broken(a[1..], b) && Broken(a, b)[0] == a[0];
      SplitAtBreak(a[1..], b);
      AddToFirstSplits(a[0], SplitLines(a[1..]), SplitLines(b));
    }
  }

  lemma {:induction false} OneLine(s: string)
    requires '\n' !in s
    ensures SplitLines(s) == [s]
  {
    if s != "" {
      assert s[0] in s;
      OneLine(s[1..]);
      assert s == [s[0]] + s[1..];
    }
  }

  lemma {:induction false} SplitJoin(lines: seq<string>)
    requires lines != []
    ensures SplitLines(Join(lines)) == FlatMap(SplitLines, lines)
    decreases |lines|
  {
    assert lines == [lines[0]] + lines[1..];
    FlatMapCons(SplitLines, lines[0], lines[1..]);
    if |lines| == 1 {
      assert FlatMap(SplitLines, []) == [] && SplitLines(lines[0]) + [] == SplitLines(lines[0]);
    } else {
      SplitAtBreak(lines[0], Join(lines[1..]));
      SplitJoin(lines[1..]);
    }
  }

  // Lines without a break that carry no command.
  ghost predicate Inert(lines: seq<string>) {
    forall line :: line in lines ==> Quiet(line)
  }

  predicate Quiet(line: string) {
    '\n' !in line && (line == "" || line[0] != 'E')
  }

  lemma {:induction false} InertSplit(lines: seq<string>)
    requires Inert(lines)
    ensures FlatMap(SplitLines, lines) == lines
  {
    if lines != [] {
      var k := |lines| - 1;
      assert lines == lines[..k] + [lines[k]];
      InertSplit(lines[..k]);
      assert Quiet(lines[k]);
      OneLine(lines[k]);
    }
  }

  lemma {:induction false} InertDirective(lines: seq<string>, rest: seq<string>, line: string)
    requires Inert(lines)
    ensures Directive(lines + rest, line) == Directive(rest, line)
  {
    if lines == [] {
      assert lines + rest == rest;
    } else {
      assert Quiet(lines[0]) && (lines + rest)[1..] == lines[1..] + rest;
      assert ExecDirective[0] == 'E';
      InertDirective(lines[1..], rest, line);
    }
  }

  lemma {:induction false} DirectiveStays(lines: seq<string>, line: string)
    requires line != ""
    ensures Directive(lines, line) == None || Directive(lines, line) == Some(line)
  {
    if lines != [] { DirectiveStays(lines[1..], line); }
  }

  lemma UnitSectionIsInert()
    ensures Inert(UnitSection)
  {
    assert Quiet("[Unit]") && Quiet("Description=Surge External Bridge") && Quiet("");
    assert Quiet("After=network-online.target") && Quiet("Wants=network-online.target");
  }

  lemma ServiceStartIsInert()
    ensures Inert(ServiceStart)
  {
  }

  lemma InertTogether(a: seq<string>, b: seq<string>)
    requires Inert(a) && Inert(b)
    ensures Inert(a + b)
  {
  }

  lemma AboveIsInert()
    ensures Inert(Above)
  {
    UnitSectionIsInert();
    ServiceStartIsInert();
    InertTogether(UnitSection, ServiceStart);
  }

  lemma BelowIsInert(target: string)
    requires '\n' !in target
    ensures Inert(Below(target))
  {
  }

  // The lines a unit is read as, around those of its command.
  lemma RenderedLines(executable: string, dataDir: string, target: string)
    requires '\n' !in target
    ensures SplitLines(UnitText(executable, dataDir, target))
            == Above + (SplitLines(ExecDirective + ExecLine(executable, dataDir)) + Below(target))
  {
    AboveIsInert();
    BelowIsInert(target);
    SplitJoin(UnitLines(executable, dataDir, target));
    SplitAround(Above, ExecDirective + ExecLine(executable, dataDir), Below(target));
  }

  lemma SplitAround(above: seq<string>, command: string, below: seq<string>)
    requires Inert(above) && Inert(below)
    ensures FlatMap(SplitLines, above + ([command] + below)) == above + (SplitLines(command) + below)
  {
    FlatMapAppends(SplitLines, above, [command] + below);
    FlatMapCons(SplitLines, command, below);
    InertSplit(above);
    InertSplit(below);
  }

  // A broken command line is read up to its first break, or refused.
  lemma BrokenDirective(above: seq<string>, head: string, rest: string, below: seq<string>)
    requires Inert(above) && '\n' !in head && head != ""
    ensures var d := Directive(above + (SplitLines(ExecDirective + Broken(head, rest)) + below), "");
            d == None || d == Some(head)
  {
    FirstPiece(head, rest);
    CommandThen(above, head, SplitLines(rest), below);
    DirectiveStays(SplitLines(rest) + below, head);
  }

  lemma FirstPiece(head: string, rest: string)
    requires '\n' !in head
    ensures SplitLines(ExecDirective + Broken(head, rest)) == [ExecDirective + head] + SplitLines(rest)
  {
    BreakAfter(ExecDirective, head, rest);
    SplitAtBreak(ExecDirective + head, rest);
    assert '\n' !in ExecDirective;
    OneLine(ExecDirective + head);
  }

  // The command after inert lines is taken, and the rest searched for another.
  lemma CommandThen(above: seq<string>, command: string, more: seq<string>, below: seq<string>)
    requires Inert(above)
    ensures Directive(above + (([ExecDirective + command] + more) + below), "") == Directive(more + below, command)
  {
    var lines := ([ExecDirective + command] + more) + below;
    InertDirective(above, lines, "");
    assert lines[1..] == more + below;
    assert lines[0][..|ExecDirective|] == ExecDirective && lines[0][|ExecDirective|..] == command;
  }

  lemma {:induction false} FirstBreak(s: string) returns (head: string, rest: string)
    requires '\n' in s
    ensures s == Broken(head, rest) && '\n' !in head
  {
    if s[0] == '\n' {
      head, rest := "", s[1..];
    } else {
      head, rest := FirstBreak(s[1..]);
      assert s == Broken([s[0]] + head, rest);
      head := [s[0]] + head;
    }
  }

  lemma {:induction false} EscapeKeepsBreaks(s: string)
    ensures '\n' in Escape(s) <==> '\n' in s
  {
    if s != "" { EscapeKeepsBreaks(s[1..]); }
  }

  lemma BreakSplitsEscape(head: string, rest: string)
    ensures Escape(Broken(head, rest)) == Broken(Escape(head), Escape(rest))
  {
    EscapeSplits(head, "\n" + rest);
    assert ("\n" + rest)[1..] == rest;
  }

  // Where a command line with a break in a path is cut, the words before are refused.
  lemma BrokenExecutable(numeric: Numeric, executable: string, dataDir: string) returns (head: string, rest: string)
    requires '\n' in executable
    ensures ExecLine(executable, dataDir) == Broken(head, rest) && '\n' !in head && head != "" && Words(numeric, head) == None
  {
    QuotingIsPerCharacter(executable);
    var p, r := FirstBreak(executable);
    BreakSplitsEscape(p, r);
    EscapeKeepsBreaks(p);
    CutExecutable(numeric, p);
    head, rest := Open(p), Escape(r) + ("\"" + Options(SystemdArg(dataDir)));
    BreakInQuotes(Escape(p), Escape(r));
    BreakBefore(head, Escape(r) + "\"", Options(SystemdArg(dataDir)));
    Regroup(Escape(r), "\"", Options(SystemdArg(dataDir)));
  }

  lemma BrokenDataDir(numeric: Numeric, executable: string, dataDir: string) returns (head: string, rest: string)
    requires '\n' !in executable && '\n' in dataDir
    ensures ExecLine(executable, dataDir) == Broken(head, rest) && '\n' !in head && head != "" && Words(numeric, head) == None
  {
    QuotingIsPerCharacter(dataDir);
    var p, r := FirstBreak(dataDir);
    BreakSplitsEscape(p, r);
    CutDataDir(numeric, executable, p);
    head, rest := SystemdArg(executable) + Options(Open(p)), Escape(r) + "\"";
    BreakInQuotes(Escape(p), Escape(r));
    OptionsBreak(executable, Open(p), rest);
    NoBreaks(executable, p);
  }

  lemma BreakInQuotes(head: string, rest: string)
    ensures "\"" + Broken(head, rest) + "\"" == Broken("\"" + head, rest + "\"")
  {
  }

  lemma BreakBefore(head: string, rest: string, more: string)
    ensures Broken(head, rest) + more == Broken(head, rest + more)
  {
  }

  lemma BreakAfter(before: string, head: string, rest: string)
    ensures before + Broken(head, rest) == Broken(before + head, rest)
  {
  }

  lemma OptionsBreak(executable: string, head: string, rest: string)
    ensures SystemdArg(executable) + Options(Broken(head, rest)) == Broken(SystemdArg(executable) + Options(head), rest)
  {
  }

  lemma NoBreaks(executable: string, p: string)
    requires '\n' !in executable && '\n' !in p
    ensures '\n' !in SystemdArg(executable) && '\n' !in SystemdArg(executable) + Options(Open(p))
  {
    QuotingIsPerCharacter(executable);
    EscapeKeepsBreaks(executable);
    EscapeKeepsBreaks(p);
    OptionsWithoutBreaks(Open(p));
  }

  lemma OptionsWithoutBreaks(rest: string)
    requires '\n' !in rest
    ensures '\n' !in Options(rest)
  {
  }

  // The text of a unit reads back as its executable and data directory, with what is no UTF-8
  // replaced, unless a path has a line break; then it is refused.
  lemma UnitRoundTrip(numeric: Numeric, executable: string, dataDir: string, target: string)
    requires '\n' !in target
    ensures Definition(numeric, UnitText(executable, dataDir, target))
            == if '\n' in executable || '\n' in dataDir then None else Some((Sanitised(executable), Sanitised(dataDir)))
  {
    RenderedLines(executable, dataDir, target);
    if '\n' in executable || '\n' in dataDir {
      var head, rest;
      if '\n' in executable { head, rest := BrokenExecutable(numeric, executable, dataDir); }
      else { head, rest := BrokenDataDir(numeric, executable, dataDir); }
      AboveIsInert();
      BrokenDirective(Above, head, rest, Below(target));
    } else {
      WholeDirective(executable, dataDir, target);
      ExecLineRoundTrip(numeric, executable, dataDir);
    }
  }

  // It reads back as what was written exactly when both paths are valid UTF-8 without a line break.
  lemma ReadsBackExactly(numeric: Numeric, executable: string, dataDir: string, target: string)
    requires '\n' !in target
    ensures Definition(numeric, UnitText(executable, dataDir, target)) == Some((executable, dataDir))
            <==> '\n' !in executable && '\n' !in dataDir && ValidUtf8(executable) && ValidUtf8(dataDir)
  {
    UnitRoundTrip(numeric, executable, dataDir, target);
    SanitisedKeepsValid(executable);
    SanitisedKeepsValid(dataDir);
  }

  // Rendering refuses exactly empty paths and control characters; what it renders reads back
  // exactly when both paths are valid UTF-8.
  lemma RenderedReadsBack(numeric: Numeric, executable: string, dataDir: string, root: bool)
    ensures Render(executable, dataDir, root).Some? ==>
              (Definition(numeric, Render(executable, dataDir, root).value) == Some((executable, dataDir))
               <==> ValidUtf8(executable) && ValidUtf8(dataDir))
    ensures Render(executable, dataDir, root).None? <==>
              executable == "" || dataDir == "" || exists c :: c in "\0\r\n" && (c in executable || c in dataDir)
  {
    assert forall c :: Control(c) <==> c in "\0\r\n";
    assert forall c :: c in executable + dataDir <==> c in executable || c in dataDir;
    assert '\n' !in InstallTarget(root);
    if Render(executable, dataDir, root).Some? {
      assert Control('\n');
      ReadsBackExactly(numeric, executable, dataDir, InstallTarget(root));
    }
  }

  // Paths that are rendered and do not read back: one byte that begins no character.
  lemma InvalidByteIsLost(numeric: Numeric, c: char, root: bool)
    requires c >= '\U{80}'
    ensures Render([c], "/", root).Some?
    ensures Definition(numeric, Render([c], "/", root).value) == Some((Replacement, "/"))
  {
    Renders([c], "/", root);
    UnitRoundTrip(numeric, [c], "/", InstallTarget(root));
    OneByte(c);
    OneByte('/');
  }

  // A unit of the system starts with the system, one of a user with the user.
  lemma InstallsFor(executable: string, dataDir: string, root: bool)
    requires Render(executable, dataDir, root).Some?
    ensures ("WantedBy=" + if root then "multi-user.target" else "default.target") in SplitLines(Render(executable, dataDir, root).value)
  {
    assert '\n' !in InstallTarget(root);
    InstallLine(executable, dataDir, InstallTarget(root));
  }

  lemma InstallLine(executable: string, dataDir: string, target: string)
    requires '\n' !in target
    ensures "WantedBy=" + target in SplitLines(UnitText(executable, dataDir, target))
  {
    RenderedLines(executable, dataDir, target);
    assert Below(target)[7] == "WantedBy=" + target;
    assert "WantedBy=" + target in Below(target);
  }

  lemma Renders(executable: string, dataDir: string, root: bool)
    requires executable != "" && dataDir != "" && forall c :: c in executable || c in dataDir ==> !Control(c)
    ensures Render(executable, dataDir, root) == Some(UnitText(executable, dataDir, InstallTarget(root)))
  {
  }

  lemma OneByte(c: char)
    ensures Sanitised([c]) == if c < '\U{80}' then [c] else Replacement
  {
    assert [c][1..] == "" && [c][..1] == [c];
    assert [c] + "" == [c] && Replacement + "" == Replacement;
  }

  lemma WholeDirective(executable: string, dataDir: string, target: string)
    requires '\n' !in executable && '\n' !in dataDir && '\n' !in target
    ensures Directive(Above + (SplitLines(ExecDirective + ExecLine(executable, dataDir)) + Below(target)), "")
            == Some(ExecLine(executable, dataDir))
  {
    NoBreaks(executable, "");
    NoBreaks(dataDir, "");
    OptionsWithoutBreaks(SystemdArg(dataDir));
    var line := ExecLine(executable, dataDir);
    assert '\n' !in ExecDirective;
    OneLine(ExecDirective + line);
    AboveIsInert();
    CommandThen(Above, line, [], Below(target));
    assert [ExecDirective + line] + [] == [ExecDirective + line] && [] + Below(target) == Below(target);
    BelowIsInert(target);
    assert Below(target) + [] == Below(target);
    InertDirective(Below(target), [], line);
  }
}
