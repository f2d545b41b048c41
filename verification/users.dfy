/**
 * `Generar_Excel_Users.py` (Linux) and `Generar_Excel_Users_Solaris.py`: one row per user entry
 * of every host. An entry is the output of `id`, `sudo -l` and, on Solaris, the login shell and
 * `passwd -s`, separated by "###". From it the scripts take the user name, the UID, the groups,
 * a sudo level with the permitted command lines and, on Solaris, whether the user is active.
 */
module UserPermissions {
  import opened PyText
  import opened JsonValue
  import opened Report
  import StableSort

  // ---------------------------------------------------------------------
  // The `id` line
  // ---------------------------------------------------------------------

  /** Index of the first occurrence of `c` in `s`. */
  function CharIndex(s: string, c: char): (r: Option<nat>)
    ensures r.Some? ==> r.value < |s| && s[r.value] == c && c !in s[..r.value]
    ensures r.None? ==> c !in s
  {
    if s == [] then None
    else if s[0] == c then Some(0)
    else
      match CharIndex(s[1..], c)
      case None => None
      case Some(i) => assert s[..i + 1] == [s[0]] + s[1..][..i]; Some(i + 1)
  }

  /** `re.findall(r'\(([^)]+)\)', s)`: the text inside every parenthesised group that is not empty,
      scanning from the left; an opening parenthesis whose group is empty or never closed is
      skipped. */
  function GroupMatches(s: string): (gs: seq<string>)
    decreases |s|
    ensures forall k :: 0 <= k < |gs| ==> gs[k] != [] && ')' !in gs[k]
  {
    if s == [] then []
    else if s[0] != '(' then GroupMatches(s[1..])
    else
      match CharIndex(s[1..], ')')
      case Some(k) =>
        if k == 0 then GroupMatches(s[1..])
        else
          assert s[1..1 + k] == s[1..][..k];
          [s[1..1 + k]] + GroupMatches(s[k + 2..])
      case None => GroupMatches(s[1..])
  }

  /** A closed group is matched and the scan continues after it. */
  lemma GroupMatchesGroup(g: string, rest: string)
    requires g != [] && ')' !in g
    ensures GroupMatches("(" + g + ")" + rest) == [g] + GroupMatches(rest)
  {
    var s := "(" + g + ")" + rest;
    assert s[1..] == g + ")" + rest;
    assert s[1..][|g|] == ')' && s[1..][..|g|] == g;
    assert CharIndex(s[1..], ')') == Some(|g|);
    assert s[1..1 + |g|] == g;
    assert s[|g| + 2..] == rest;
  }

  /** Text without an opening parenthesis contributes no group. */
  lemma {:induction false} GroupMatchesPlain(t: string, rest: string)
    requires '(' !in t
    ensures GroupMatches(t + rest) == GroupMatches(rest)
  {
    if t != [] {
      assert (t + rest)[0] == t[0] && t[0] in t;
      assert (t + rest)[1..] == t[1..] + rest;
      assert GroupMatches(t + rest) == GroupMatches((t + rest)[1..]);
      GroupMatchesPlain(t[1..], rest);
    } else {
      assert t + rest == rest;
    }
  }

  /** What the `try` block takes from the `id` line. */
  datatype Identity = Identity(user: string, uid: string, groups: string)

  /** `id_line[0].split('=')[1].split('(')[1][:-1]`: the text between the first `(` after the
      first `=` and the next `(`, without its last character; `None` for the IndexError. */
  function UserOf(word: string): Option<string>
  {
    var eq := SplitOn(word, "=");
    if |eq| < 2 then None
    else
      var par := SplitOn(eq[1], "(");
      if |par| < 2 then None
      else Some(if par[1] == [] then [] else par[1][..|par[1]| - 1])
  }

  /** The first word that starts with "uid=". */
  function FirstUidWord(words: seq<string>): (r: Option<string>)
    ensures r.Some? ==> r.value in words && StartsWith(r.value, "uid=")
    ensures r.None? ==> forall k :: 0 <= k < |words| ==> !StartsWith(words[k], "uid=")
  {
    if words == [] then None
    else if StartsWith(words[0], "uid=") then Some(words[0])
    else FirstUidWord(words[1..])
  }

  /** `.split('=')[1].split('(')[0]` of that word: the text between "uid=" and the first `(`. */
  function UidOf(words: seq<string>): Option<string>
  {
    match FirstUidWord(words)
    case None => None
    case Some(w) =>
      var eq := SplitOn(w, "=");
      if |eq| < 2 then None else Some(SplitOn(eq[1], "(")[0])
  }

  /** `','.join(sorted(set(grupo_matches)))` */
  function GroupsText(idInfo: string): string
  {
    Join(StableSort.SortedSet(GroupMatches(idInfo)), ",")
  }

  /** The group names listed are exactly the distinct groups of the line, in increasing order,
      each once. */
  lemma GroupsListed(idInfo: string)
    ensures GroupsText(idInfo) == Join(StableSort.SortedSet(GroupMatches(idInfo)), ",")
    ensures StableSort.StrictlyIncreasing(StableSort.SortedSet(GroupMatches(idInfo)))
    ensures forall g :: g in StableSort.SortedSet(GroupMatches(idInfo)) <==> g in GroupMatches(idInfo)
  {
    StableSort.SortedSetIncreasing(GroupMatches(idInfo));
  }

  /** The `try` block: user, UID and groups, or `None` when an index is out of range. */
  function ParseId(idInfo: string): Option<Identity>
  {
    var words := Words(idInfo);
    if words == [] then None
    else
      match (UserOf(words[0]), UidOf(words))
      case (Some(user), Some(uid)) => Some(Identity(user, uid, GroupsText(idInfo)))
      case _ => None
  }

  /** "uid=1000(jdoe)" gives the user "jdoe" and the UID "1000": the user is the text inside the
      parentheses of the first word, the UID the text between "uid=" and "(". */
  lemma ParseIdWord(uid: string, user: string, rest: string)
    requires '=' !in uid && '(' !in uid && '=' !in user && '(' !in user
    requires IsWord("uid=" + uid + "(" + user + ")")
    requires rest == [] || IsSpace(rest[0])
    ensures ParseId("uid=" + uid + "(" + user + ")" + rest) ==
      Some(Identity(user, uid, GroupsText("uid=" + uid + "(" + user + ")" + rest)))
  {
    var w := "uid=" + uid + "(" + user + ")";
    WordsFirst(w, rest);
    assert Words(w + rest)[0] == w;
    UidWordParts(uid, user);
    assert FirstUidWord(Words(w + rest)) == Some(w);
  }

  /** The word "uid=<uid>(<user>)" splits back into the UID and the user. */
  lemma UidWordParts(uid: string, user: string)
    requires '=' !in uid && '(' !in uid && '=' !in user && '(' !in user
    ensures var w := "uid=" + uid + "(" + user + ")";
      StartsWith(w, "uid=") && UserOf(w) == Some(user) &&
      |SplitOn(w, "=")| >= 2 && SplitOn(SplitOn(w, "=")[1], "(")[0] == uid
  {
    var w := "uid=" + uid + "(" + user + ")";
    var tail := uid + "(" + user + ")";
    var u2 := user + ")";
    assert w == "uid" + ['='] + tail;
    assert tail == uid + ['('] + u2;
    SplitPair("uid", '=', tail);
    SplitPair(uid, '(', u2);
    assert u2[..|u2| - 1] == user;
    assert StartsWith(w, "uid=");
  }

  /** Two pieces without the separator split back apart. */
  lemma SplitPair(a: string, c: char, b: string)
    requires c !in a && c !in b
    ensures SplitOn(a + [c] + b, [c]) == [a, b]
  {
    SplitOnFirst(a, c, b);
    FindCharAbsent(b, c);
  }

  // ---------------------------------------------------------------------
  // The `sudo -l` output
  // ---------------------------------------------------------------------

  /** `[l.strip() for l in sudo_info.splitlines() if l.strip().startswith('(')]` */
  function CommandLines(sudo: string): (lines: seq<string>)
    ensures forall k :: 0 <= k < |lines| ==> StartsWith(lines[k], "(")
  {
    Kept(SplitLines(sudo))
  }

  /** The stripped lines that start with `(`, in order. */
  function Kept(ls: seq<string>): (lines: seq<string>)
    ensures forall k :: 0 <= k < |lines| ==> StartsWith(lines[k], "(")
    ensures |lines| <= |ls|
  {
    if ls == [] then []
    else
      var t := Strip(ls[|ls| - 1]);
      if StartsWith(t, "(") then Kept(ls[..|ls| - 1]) + [t] else Kept(ls[..|ls| - 1])
  }

  /** Every line that starts with `(` once stripped is kept. */
  lemma {:induction false} KeptAll(ls: seq<string>)
    ensures forall k :: 0 <= k < |ls| && StartsWith(Strip(ls[k]), "(") ==> Strip(ls[k]) in Kept(ls)
  {
    if ls != [] {
      var init := ls[..|ls| - 1];
      KeptAll(init);
      forall k | 0 <= k < |ls| && StartsWith(Strip(ls[k]), "(") ensures Strip(ls[k]) in Kept(ls) {
        if k < |init| {
          assert init[k] == ls[k];
          assert Strip(ls[k]) in Kept(init);
        }
      }
    }
  }

  /** The sudo level written in the "Tiene Sudo" column. */
  datatype SudoLevel = NoSudo | FullSudo | Limited | SuRestricted | LimitedWithRestrictions

  function SudoText(l: SudoLevel): string
  {
    match l
    case NoSudo => "NO"
    case FullSudo => "SÍ"
    case Limited => "SÍ (limitado)"
    case SuRestricted => "SÍ (restringido: no puede usar su)"
    case LimitedWithRestrictions => "SÍ (limitado con restricciones)"
  }

  /** The output lists what the user may run. */
  predicate Listing(sudo: string)
  {
    Contains(sudo, "may run the following commands") || Contains(sudo, "(ALL)")
  }

  /** A command line that grants every command. */
  predicate GrantsAll(line: string)
  {
    Contains(line, "(ALL) ALL") || Contains(line, "(ALL) NOPASSWD: ALL")
  }

  /** The level and the command text the scripts compute from `sudo -l`. */
  datatype Sudo = Sudo(level: SudoLevel, commands: string)

  /** The Linux rule: a listing restricted from `su` wins; one single line granting everything is
      full sudo; any other listing is limited; a denial phrase is no sudo; anything else is limited
      with whatever command lines there are. */
  function SudoLinux(sudo: string, denied: bool, lines: seq<string>): (r: Sudo)
    ensures r.level.NoSudo? <==> !Listing(sudo) && denied
    ensures r.level.SuRestricted? <==> Listing(sudo) && Contains(sudo, "!/sbin/su")
    ensures r.level.FullSudo? <==> Listing(sudo) && !Contains(sudo, "!/sbin/su") && |lines| == 1 && GrantsAll(lines[0])
    ensures r.level.Limited? <==>
      (Listing(sudo) && !Contains(sudo, "!/sbin/su") && !(|lines| == 1 && GrantsAll(lines[0]))) || (!Listing(sudo) && !denied)
    ensures !r.level.LimitedWithRestrictions?
    ensures r.commands == if r.level.NoSudo? then "" else Join(lines, "\n")
  {
    if Listing(sudo) then
      if Contains(sudo, "!/sbin/su") then Sudo(SuRestricted, Join(lines, "\n"))
      else if |lines| == 1 && GrantsAll(lines[0]) then Sudo(FullSudo, Join(lines, "\n"))
      else Sudo(Limited, Join(lines, "\n"))
    else if denied then Sudo(NoSudo, "")
    else Sudo(Limited, Join(lines, "\n"))
  }

  /** The denial phrases of the Linux script. */
  predicate DeniedLinux(sudo: string)
  {
    Contains(sudo, "NO_SUDO") || Contains(sudo, "is not allowed to run sudo") ||
    Contains(sudo, "may not run sudo") || Contains(sudo, "not allowed to run sudo")
  }

  /** The denial phrases of the Solaris script. */
  predicate DeniedSolaris(sudo: string)
  {
    Contains(sudo, "NO_SUDO") || Contains(sudo, "not allowed to run sudo")
  }

  /** Some command line grants everything. */
  predicate AnyGrantsAll(lines: seq<string>)
  {
    exists k :: 0 <= k < |lines| && GrantsAll(lines[k])
  }

  /** Some command line carries a `!` exclusion. */
  predicate AnyRestricted(lines: seq<string>)
  {
    exists k :: 0 <= k < |lines| && '!' in lines[k]
  }

  /** The Solaris rule: full sudo needs a line granting everything, no `!` in any line and exactly
      one line; any `!` gives "limited with restrictions"; other listings are limited; a denial
      phrase is no sudo; anything else is limited with whatever command lines there are. */
  function SudoSolaris(sudo: string, denied: bool, lines: seq<string>): (r: Sudo)
    ensures r.level.NoSudo? <==> !Listing(sudo) && denied
    ensures r.level.FullSudo? <==> Listing(sudo) && AnyGrantsAll(lines) && !AnyRestricted(lines) && |lines| == 1
    ensures r.level.LimitedWithRestrictions? <==> Listing(sudo) && AnyRestricted(lines)
    ensures r.level.Limited? <==>
      (Listing(sudo) && !AnyRestricted(lines) && !(AnyGrantsAll(lines) && |lines| == 1)) || (!Listing(sudo) && !denied)
    ensures !r.level.SuRestricted?
    ensures r.commands == if r.level.NoSudo? then "" else Join(lines, "\n")
  {
    if Listing(sudo) then
      var all := AnyGrantsAll(lines);
      var restricted := AnyRestricted(lines);
      if all && !restricted && |lines| == 1 then Sudo(FullSudo, Join(lines, "\n"))
      else if restricted then Sudo(LimitedWithRestrictions, Join(lines, "\n"))
      else Sudo(Limited, Join(lines, "\n"))
    else if denied then Sudo(NoSudo, "")
    else Sudo(Limited, Join(lines, "\n"))
  }

  /** On Solaris full sudo means one single command line, which grants everything and has no `!`. */
  lemma SolarisFullSudo(sudo: string, denied: bool, lines: seq<string>)
    requires SudoSolaris(sudo, denied, lines).level.FullSudo?
    ensures |lines| == 1 && GrantsAll(lines[0]) && '!' !in lines[0]
  {
  }

  // ---------------------------------------------------------------------
  // Whether a Solaris user is active
  // ---------------------------------------------------------------------

  datatype Activity = Active | ShellBlocked | UidOutOfRange | KeyOnly

  function ActiveText(a: Activity): string
  {
    match a
    case Active => "SÍ"
    case ShellBlocked => "NO"
    case UidOutOfRange => "NO"
    case KeyOnly => "SÍ (solo llave privada SSH)"
  }

  function LockText(a: Activity): string
  {
    match a
    case Active => ""
    case ShellBlocked => "Shell"
    case UidOutOfRange => "UID fuera de rango"
    case KeyOnly => "passwd -s / shadow"
  }

  predicate ShellLocks(shell: string)
  {
    EndsWith(shell, "nologin") || EndsWith(shell, "false") || Contains(shell, "shutdown")
  }

  /** `uid.isdigit() and (int(uid) < 100 or int(uid) >= 60000)` */
  predicate UidOutside(uid: string)
  {
    IsDigitText(uid) && (DigitsValue(uid) < 100 || DigitsValue(uid) >= 60000)
  }

  /** The markers of a locked password in `passwd -s`. */
  predicate PasswordLocked(status: string)
  {
    Contains(status, "LK") || Contains(status, "NL") || Contains(status, "*") || Contains(status, "!") ||
    Contains(status, "!!")
  }

  /** The prioritised rule: a locking shell first, then a UID outside 100..59999, then a locked
      password, otherwise active. */
  function ActivityOf(shell: string, uid: string, status: string): (a: Activity)
    ensures a.ShellBlocked? <==> ShellLocks(shell)
    ensures a.UidOutOfRange? <==> !ShellLocks(shell) && UidOutside(uid)
    ensures a.KeyOnly? <==> !ShellLocks(shell) && !UidOutside(uid) && PasswordLocked(status)
    ensures a.Active? <==> !ShellLocks(shell) && !UidOutside(uid) && !PasswordLocked(status)
  {
    if ShellLocks(shell) then ShellBlocked
    else if UidOutside(uid) then UidOutOfRange
    else if PasswordLocked(status) then KeyOnly
    else Active
  }

  /** Only the shell and the UID rules mark a user inactive. */
  lemma InactiveReasons(shell: string, uid: string, status: string)
    ensures ActiveText(ActivityOf(shell, uid, status)) == "NO" <==> ShellLocks(shell) || UidOutside(uid)
  {
    var a := ActivityOf(shell, uid, status);
    assert ActiveText(Active) != "NO" && ActiveText(KeyOnly) != "NO";
  }

  // ---------------------------------------------------------------------
  // Entries and rows
  // ---------------------------------------------------------------------

  /** What one host contributes besides its entries. */
  datatype Host = Host(name: string, fields: seq<(string, Json)>)

  /** What one entry gives: the end of the run, no row (skipped), or a row. */
  type EntryRule = (Host, Json) -> Outcome<Option<seq<Json>>>

  /** `sheet.write` accepts no list or dict (TypeError). */
  function Written(cells: seq<Json>): Outcome<Option<seq<Json>>>
  {
    if exists c :: 0 <= c < |cells| && !CellValue(cells[c]) then Crash("TypeError") else Done(Some(cells))
  }

  /** The parts of an entry split on "###", each stripped; an entry that is not text makes `strip`
      raise AttributeError. */
  function EntryParts(entry: Json): Outcome<seq<string>>
  {
    if !entry.JStr? then Crash("AttributeError")
    else
      var parts := SplitOn(Strip(entry.s), "###");
      Done(seq(|parts|, i requires 0 <= i < |parts| => Strip(parts[i])))
  }

  /** One entry of the Linux script: skipped unless it has exactly two parts and its `id` line
      parses; otherwise the eight cells. */
  function LinuxEntry(host: Host, entry: Json): (r: Outcome<Option<seq<Json>>>)
    ensures r.Done? && r.value.Some? ==>
      EntryParts(entry).Done? && |EntryParts(entry).value| == 2 && ParseId(EntryParts(entry).value[0]).Some? &&
      LinuxCells(host, ParseId(EntryParts(entry).value[0]).value, EntryParts(entry).value[1]) == r.value.value
    ensures EntryParts(entry).Done? && |EntryParts(entry).value| != 2 ==> r == Done(None)
    ensures EntryParts(entry).Done? && |EntryParts(entry).value| == 2 && ParseId(EntryParts(entry).value[0]).None? ==>
      r == Done(None)
  {
    match EntryParts(entry)
    case Done(parts) =>
      if |parts| != 2 then Done(None)
      else (
        match ParseId(parts[0])
        case None => Done(None)
        case Some(id) => Written(LinuxCells(host, id, parts[1])))
    case Exit(c) => Exit(c)
    case Crash(e) => Crash(e)
  }

  /** Host, IP, environment, user, UID, groups, sudo level and commands. */
  function LinuxCells(host: Host, id: Identity, sudo: string): (cells: seq<Json>)
    ensures |cells| == 8
  {
    var s := SudoLinux(sudo, DeniedLinux(sudo), CommandLines(sudo));
    [JStr(host.name), GetOr(host.fields, "ip", JStr("")), GetOr(host.fields, "ambiente", JStr("")),
      JStr(id.user), JStr(id.uid), JStr(id.groups), JStr(SudoText(s.level)), JStr(s.commands)]
  }

  /** One entry of the Solaris script: skipped unless it has exactly four parts and its `id` line
      parses; otherwise the twelve cells. */
  function SolarisEntry(host: Host, entry: Json): (r: Outcome<Option<seq<Json>>>)
    ensures r.Done? && r.value.Some? ==>
      EntryParts(entry).Done? && |EntryParts(entry).value| == 4 && ParseId(EntryParts(entry).value[0]).Some? &&
      SolarisCells(host, ParseId(EntryParts(entry).value[0]).value, EntryParts(entry).value) == r.value.value
    ensures EntryParts(entry).Done? && |EntryParts(entry).value| != 4 ==> r == Done(None)
    ensures EntryParts(entry).Done? && |EntryParts(entry).value| == 4 && ParseId(EntryParts(entry).value[0]).None? ==>
      r == Done(None)
  {
    match EntryParts(entry)
    case Done(parts) =>
      if |parts| != 4 then Done(None)
      else (
        match ParseId(parts[0])
        case None => Done(None)
        case Some(id) => Written(SolarisCells(host, id, parts)))
    case Exit(c) => Exit(c)
    case Crash(e) => Crash(e)
  }

  /** Host, IP, environment, group, user, UID, groups, shell, sudo level, commands, whether the
      user is active and how it is locked. */
  function SolarisCells(host: Host, id: Identity, parts: seq<string>): (cells: seq<Json>)
    requires |parts| == 4
    ensures |cells| == 12
  {
    var s := SudoSolaris(parts[1], DeniedSolaris(parts[1]), CommandLines(parts[1]));
    var a := ActivityOf(parts[2], id.uid, parts[3]);
    [JStr(host.name), GetOr(host.fields, "ip", JStr("")), GetOr(host.fields, "ambiente", JStr("")),
      GetOr(host.fields, "grupo", JStr("")), JStr(id.user), JStr(id.uid), JStr(id.groups), JStr(parts[2]),
      JStr(SudoText(s.level)), JStr(s.commands), JStr(ActiveText(a)), JStr(LockText(a))]
  }

  /** The rows the entries of one host give, in order, skipped entries leaving no row. */
  function EntryRows(host: Host, entries: seq<Json>, rule: EntryRule): (r: Outcome<seq<seq<Json>>>)
    ensures r.Done? ==> |r.value| <= |entries|
  {
    if entries == [] then Done([])
    else
      match EntryRows(host, entries[..|entries| - 1], rule)
      case Done(rows) => (
        match rule(host, entries[|entries| - 1])
        case Done(row) => Done(if row.Some? then rows + [row.value] else rows)
        case Exit(c) => Exit(c)
        case Crash(e) => Crash(e))
      case Exit(c) => Exit(c)
      case Crash(e) => Crash(e)
  }

  /** `valores['usuarios']` iterated: the record must be a dict (AttributeError on `.get`), hold
      the key (KeyError) and the value must be iterable (TypeError). */
  function Entries(valores: Json): Outcome<seq<Json>>
  {
    if !valores.JDict? then Crash("AttributeError")
    else
      match Lookup(valores.fields, "usuarios")
      case None => Crash("KeyError")
      case Some(v) =>
        match Iter(v)
        case None => Crash("TypeError")
        case Some(xs) => Done(xs)
  }

  function HostRows(item: (string, Json), rule: EntryRule): Outcome<seq<seq<Json>>>
  {
    match Entries(item.1)
    case Done(entries) => EntryRows(Host(item.0, item.1.fields), entries, rule)
    case Exit(c) => Exit(c)
    case Crash(e) => Crash(e)
  }

  /** The data rows of the whole sheet: the rows of every host, host after host. */
  function AllRows(items: seq<(string, Json)>, rule: EntryRule): Outcome<seq<seq<Json>>>
  {
    if items == [] then Done([])
    else
      match AllRows(items[..|items| - 1], rule)
      case Done(rows) => (
        match HostRows(items[|items| - 1], rule)
        case Done(more) => Done(rows + more)
        case Exit(c) => Exit(c)
        case Crash(e) => Crash(e))
      case Exit(c) => Exit(c)
      case Crash(e) => Crash(e)
  }

  /** A skipped entry leaves the rows of its host as they were; an accepted one adds its row. */
  lemma EntryRowsStep(host: Host, entries: seq<Json>, j: nat, rule: EntryRule, rows: seq<seq<Json>>)
    requires j < |entries| && EntryRows(host, entries[..j], rule) == Done(rows)
    ensures EntryRows(host, entries[..j + 1], rule) ==
      match rule(host, entries[j])
      case Done(row) => Done(if row.Some? then rows + [row.value] else rows)
      case Exit(c) => Exit(c)
      case Crash(e) => Crash(e)
  {
    assert entries[..j + 1][..j] == entries[..j];
  }

  /** Once an entry ends the run, the later entries change nothing. */
  lemma {:induction false} EntryRowsEnd(host: Host, entries: seq<Json>, k: nat, rule: EntryRule)
    requires k <= |entries| && !EntryRows(host, entries[..k], rule).Done?
    ensures EntryRows(host, entries, rule) == EntryRows(host, entries[..k], rule)
    decreases |entries| - k
  {
    if k < |entries| {
      assert entries[..k + 1][..k] == entries[..k];
      EntryRowsEnd(host, entries, k + 1, rule);
    } else {
      assert entries[..k] == entries;
    }
  }

  lemma {:induction false} AllRowsEnd(items: seq<(string, Json)>, k: nat, rule: EntryRule)
    requires k <= |items| && !AllRows(items[..k], rule).Done?
    ensures AllRows(items, rule) == AllRows(items[..k], rule)
    decreases |items| - k
  {
    if k < |items| {
      assert items[..k + 1][..k] == items[..k];
      AllRowsEnd(items, k + 1, rule);
    } else {
      assert items[..k] == items;
    }
  }

  lemma AllRowsStep(items: seq<(string, Json)>, i: nat, rule: EntryRule, rows: seq<seq<Json>>)
    requires i < |items| && AllRows(items[..i], rule) == Done(rows)
    ensures AllRows(items[..i + 1], rule) ==
      match HostRows(items[i], rule)
      case Done(more) => Done(rows + more)
      case Exit(c) => Exit(c)
      case Crash(e) => Crash(e)
  {
    assert items[..i + 1][..i] == items[..i];
  }

  /** The sheet a script writes: the header in row 0 and the data rows from row 1 on. */
  function UsersSheet(input: Input, header: seq<string>, rule: EntryRule): Outcome<seq<seq<Json>>>
  {
    if !input.Decoded? then Crash(if input.Missing? then "FileNotFoundError" else "JSONDecodeError")
    else if !input.doc.JDict? then Crash("AttributeError")
    else
      match AllRows(Items(input.doc.fields), rule)
      case Done(rows) => Done([HeaderRow(header)] + rows)
      case Exit(c) => Exit(c)
      case Crash(e) => Crash(e)
  }

  function HeaderRow(header: seq<string>): seq<Json>
  {
    seq(|header|, c requires 0 <= c < |header| => JStr(header[c]))
  }

  /** Both scripts: the header in row 0, then the outer loop over the hosts. */
  method ExportUsers(input: Input, header: seq<string>, rule: EntryRule) returns (out: Outcome<seq<seq<Json>>>)
    ensures out == UsersSheet(input, header, rule)
  {
    if !input.Decoded? {
      return Crash(if input.Missing? then "FileNotFoundError" else "JSONDecodeError");
    }
    if !input.doc.JDict? {
      return Crash("AttributeError");
    }
    out := WriteHosts([HeaderRow(header)], Items(input.doc.fields), rule);
  }

  /** The outer loop, over the hosts; `fila` is the row the next entry goes to. */
  method WriteHosts(sheet: seq<seq<Json>>, items: seq<(string, Json)>, rule: EntryRule) returns (out: Outcome<seq<seq<Json>>>)
    ensures out == match AllRows(items, rule)
      case Done(rows) => Done(sheet + rows)
      case Exit(c) => Exit(c)
      case Crash(e) => Crash(e)
  {
    var rows := sheet;
    var fila := |sheet|;
    var i := 0;
    assert items[..0] == [] && rows[|sheet|..] == [];
    while i < |items|
      invariant i <= |items| && |rows| == fila && |sheet| <= |rows| && rows[..|sheet|] == sheet
      invariant AllRows(items[..i], rule) == Done(rows[|sheet|..])
    {
      AllRowsStep(items, i, rule, rows[|sheet|..]);
      var next := WriteHost(rows, items[i], rule);
      if !next.Done? {
        AllRowsEnd(items, i + 1, rule);
        return next;
      }
      assert next.value[|sheet|..] == rows[|sheet|..] + next.value[|rows|..];
      rows := next.value;
      fila := |rows|;
      i := i + 1;
    }
    assert items[..i] == items;
    assert rows == sheet + rows[|sheet|..];
    return Done(rows);
  }

  /** The body of the outer loop: the entries of one host, written after the rows so far. */
  method WriteHost(sheet: seq<seq<Json>>, item: (string, Json), rule: EntryRule) returns (out: Outcome<seq<seq<Json>>>)
    ensures out == match HostRows(item, rule)
      case Done(more) => Done(sheet + more)
      case Exit(c) => Exit(c)
      case Crash(e) => Crash(e)
    ensures out.Done? ==> |sheet| <= |out.value| && out.value[..|sheet|] == sheet
  {
    var entries := Entries(item.1);
    if !entries.Done? {
      return if entries.Exit? then Exit(entries.code) else Crash(entries.error);
    }
    out := WriteEntries(sheet, Host(item.0, item.1.fields), entries.value, rule);
  }

  /** The inner loop, over the entries of one host: every entry that is not skipped is written at
      row `fila`, which then moves on by one. */
  method WriteEntries(sheet: seq<seq<Json>>, host: Host, entries: seq<Json>, rule: EntryRule)
    returns (out: Outcome<seq<seq<Json>>>)
    ensures out.Done? <==> EntryRows(host, entries, rule).Done?
    ensures out.Done? ==> |sheet| <= |out.value| && out.value == sheet + EntryRows(host, entries, rule).value
    ensures out.Crash? ==> EntryRows(host, entries, rule) == Crash(out.error)
    ensures out.Exit? ==> EntryRows(host, entries, rule) == Exit(out.code)
  {
    var rows := sheet;
    var fila := |sheet|;
    var j := 0;
    assert entries[..0] == [] && rows[|sheet|..] == [];
    while j < |entries|
      invariant j <= |entries| && |rows| == fila && |sheet| <= |rows| && rows[..|sheet|] == sheet
      invariant EntryRows(host, entries[..j], rule) == Done(rows[|sheet|..])
    {
      EntryRowsStep(host, entries, j, rule, rows[|sheet|..]);
      var row := rule(host, entries[j]);
      if !row.Done? {
        EntryRowsEnd(host, entries, j + 1, rule);
        return if row.Exit? then Exit(row.code) else Crash(row.error);
      }
      if row.value.Some? {
        assert (rows + [row.value.value])[|sheet|..] == rows[|sheet|..] + [row.value.value];
        rows := rows + [row.value.value];
        fila := fila + 1;
      }
      j := j + 1;
    }
    assert entries[..j] == entries;
    assert rows == sheet + rows[|sheet|..];
    return Done(rows);
  }

  const LinuxHeaders: seq<string> := ["Host", "IP", "Ambiente", "Usuario", "UID", "Grupos", "Tiene Sudo", "Comandos Permitidos"]

  const SolarisHeaders: seq<string> := [
    "Host", "IP", "Ambiente", "Grupo", "Usuario", "UID", "Grupos", "Shell", "Tiene Sudo", "Comandos Permitidos",
    "Usuario Activo", "Método de Bloqueo"
  ]

  /** `Generar_Excel_Users.py` */
  method ExportLinux(input: Input) returns (out: Outcome<seq<seq<Json>>>)
    ensures out == UsersSheet(input, LinuxHeaders, LinuxEntry)
  {
    out := ExportUsers(input, LinuxHeaders, LinuxEntry);
  }

  /** `Generar_Excel_Users_Solaris.py` */
  method ExportSolaris(input: Input) returns (out: Outcome<seq<seq<Json>>>)
    ensures out == UsersSheet(input, SolarisHeaders, SolarisEntry)
  {
    out := ExportUsers(input, SolarisHeaders, SolarisEntry);
  }

  /** Every row the entry rules write has one cell per header. */
  lemma {:induction false} RowWidths(host: Host, entries: seq<Json>, rule: EntryRule, width: nat)
    requires forall e :: rule(host, e).Done? && rule(host, e).value.Some? ==> |rule(host, e).value.value| == width
    requires EntryRows(host, entries, rule).Done?
    ensures forall k :: 0 <= k < |EntryRows(host, entries, rule).value| ==> |EntryRows(host, entries, rule).value[k]| == width
  {
    if entries != [] {
      RowWidths(host, entries[..|entries| - 1], rule, width);
    }
  }

  /** Skipped entries do not move the row counter: the rows of a host are as many as its entries
      that the rule accepts. */
  lemma {:induction false} RowsCountAccepted(host: Host, entries: seq<Json>, rule: EntryRule)
    requires EntryRows(host, entries, rule).Done?
    ensures |EntryRows(host, entries, rule).value| == Accepted(host, entries, rule)
  {
    if entries != [] {
      RowsCountAccepted(host, entries[..|entries| - 1], rule);
    }
  }

  /** How many entries the rule turns into a row. */
  function Accepted(host: Host, entries: seq<Json>, rule: EntryRule): nat
  {
    if entries == [] then 0
    else
      var last := rule(host, entries[|entries| - 1]);
      Accepted(host, entries[..|entries| - 1], rule) + if last.Done? && last.value.Some? then 1 else 0
  }
}
