/** The command safety filter of the shell assistant: a fixed blocklist of
    keywords, and the rule that a command is harmful exactly when one of them
    occurs in it as a contiguous, case-sensitive substring. */
module CommandGuard {

  // The blocklist, one constant per line of the list in bash_assistant.py,
  // in the order the source scans it.
  // bash_assistant.py:36, rm variants
  const Removal: seq<string> := ["rm", "rm -rf", "rm -r", "rm --recursive", "rm --force", "rm -d", "rmdir", "rmdir --ignore-fail-on-non-empty"]
  // bash_assistant.py:37, unlink, shred, wipe
  const Erasure: seq<string> := ["unlink", "shred", "wipe"]
  // bash_assistant.py:38, filesystem formatting
  const Formatting: seq<string> := ["mkfs", "mkfs.ext4", "mkfs.btrfs", "mkfs.xfs", "mkfs.vfat"]
  // bash_assistant.py:39, raw disk copy
  const DiskCopy: seq<string> := ["dd", "dd if=", "dd of="]
  // bash_assistant.py:40, fork bomb
  const ForkBomb: seq<string> := [":(){ :|:& };:"]
  // bash_assistant.py:41, permission changes
  const PermissionChange: seq<string> := ["chmod", "chmod 777", "chmod -R", "chmod --recursive", "chmod --mode=777"]
  // bash_assistant.py:42, ownership changes
  const OwnershipChange: seq<string> := ["chown", "chown -R", "chown --recursive"]
  // bash_assistant.py:43, power control
  const PowerControl: seq<string> := ["shutdown", "shutdown -h", "shutdown --halt", "shutdown -r", "shutdown --reboot", "reboot", "poweroff", "init 0", "init 6"]
  // bash_assistant.py:44, process killing
  const ProcessKilling: seq<string> := ["kill -9", "killall", "kill --signal 9", "pkill"]
  // bash_assistant.py:45, network fetchers and listeners
  const NetworkTools: seq<string> := ["wget", "curl", "nc -l", "nc --listen", "netcat -l"]
  // bash_assistant.py:46, piping into a shell
  const PipeToShell: seq<string> := ["| sh", "| bash", "| /bin/sh", "| /bin/bash", "| ksh", "| zsh", "| csh"]
  // bash_assistant.py:47, output redirection
  const Redirection: seq<string> := [">", ">>", "1>", "2>", "&>", ">|", "2>&1"]
  // bash_assistant.py:48, firewall resets
  const FirewallReset: seq<string> := ["iptables -F", "iptables --flush", "ufw reset", "firewalld --reload"]
  // bash_assistant.py:49, device files
  const Devices: seq<string> := ["/dev/null", "/dev/zero", "/dev/random", "/dev/sda", "/dev/sdb", "/dev/nvme"]
  // bash_assistant.py:50, account files
  const AccountFiles: seq<string> := ["/etc/passwd", "/etc/shadow", "/etc/group", "/etc/gshadow"]
  // bash_assistant.py:51, cron table removal
  const CronRemoval: seq<string> := ["crontab -r", "crontab --remove", "crontab -d", "crontab --delete"]
  // bash_assistant.py:52, service control
  const ServiceControl: seq<string> := ["systemctl stop", "systemctl disable", "systemctl mask"]
  // bash_assistant.py:53, writes through echo and cat
  const Writes: seq<string> := ["echo", "echo >", "echo >>", ": >", "cat >", "cat >>"]
  // bash_assistant.py:54, command substitution
  const Substitution: seq<string> := ["`rm -rf`", "$(rm -rf)", "`mkfs`", "$(mkfs)"]
  // bash_assistant.py:55, network configuration
  const NetworkConfig: seq<string> := ["ifconfig", "route", "ip link set", "ip link delete"]
  // bash_assistant.py:56, mounting
  const Mounting: seq<string> := ["mount", "umount", "mount -o remount,rw", "mount -o remount,ro"]
  // bash_assistant.py:57, moving and copying
  const MoveCopy: seq<string> := ["mv", "mv -f", "mv -i", "mv --force", "mv --interactive", "rsync", "cp -r", "cp --recursive"]
  // bash_assistant.py:58, moving system directories
  const MoveSystemDirs: seq<string> := ["mv /", "mv /*", "mv /etc", "mv /home", "mv /usr", "mv /bin", "mv /sbin", "mv /var", "mv /lib", "mv /opt"]

  const KeywordLines: seq<seq<string>> := [
    Removal, Erasure, Formatting, DiskCopy, ForkBomb, PermissionChange, OwnershipChange,
    PowerControl, ProcessKilling, NetworkTools, PipeToShell, Redirection, FirewallReset,
    Devices, AccountFiles, CronRemoval, ServiceControl, Writes, Substitution,
    NetworkConfig, Mounting, MoveCopy, MoveSystemDirs
  ]

  /** The keyword list exactly as the source writes it: the lines joined in order. */
  const Keywords: seq<string> := Flatten(KeywordLines)

  /** Joins the lines of a list of lists, in order. */
  function Flatten(lines: seq<seq<string>>): seq<string>
  {
    if lines == [] then [] else lines[0] + Flatten(lines[1..])
  }

  /** `k` is an entry of `Flatten(lines)` exactly when it is an entry of one of the lines. */
  lemma {:induction false} InFlatten(lines: seq<seq<string>>, k: string)
    ensures k in Flatten(lines) <==> exists line :: line in lines && k in line
  {
    if lines != [] {
      InFlatten(lines[1..], k);
      assert forall line :: line in lines <==> line == lines[0] || line in lines[1..];
    }
  }

  /** The keyword `k` is a keyword of the list exactly when it is on one of its lines. */
  lemma OnSomeLine(k: string)
    ensures k in Keywords <==> exists line :: line in KeywordLines && k in line
  {
    InFlatten(KeywordLines, k);
  }

  // ---------------------------------------------------------------------------
  // Substring containment: Python's `keyword in command` on strings.

  /** `sub` occurs in `s` starting at index `i`. */
  predicate MatchesAt(s: string, sub: string, i: nat)
  {
    i + |sub| <= |s| && s[i..i + |sub|] == sub
  }

  /** `sub` occurs in `s` as a contiguous substring (compared character by character, so case-sensitively). */
  predicate Contains(s: string, sub: string)
  {
    exists i: nat :: i <= |s| && MatchesAt(s, sub, i)
  }

  /** Some keyword of `ks` occurs in `command`. */
  predicate MatchesAny(ks: seq<string>, command: string)
  {
    exists k :: k in ks && Contains(command, k)
  }

  /** The verdict of the filter: some keyword of the blocklist occurs in `command`. */
  predicate Harmful(command: string)
  {
    MatchesAny(Keywords, command)
  }

  /** `is_command_harmful`: scan the keywords in order and stop at the first one that
      occurs in the command. */
  method IsCommandHarmful(command: string) returns (harmful: bool)
    ensures harmful <==> Harmful(command)
  {
    for i := 0 to |Keywords|
      invariant forall j :: 0 <= j < i ==> !Contains(command, Keywords[j])
    {
      if Contains(command, Keywords[i]) {
        return true;
      }
    }
    return false;
  }

  // ---------------------------------------------------------------------------
  // Properties of containment.

  /** A string only contains strings no longer than itself. */
  lemma ContainedIsShorter(s: string, sub: string)
    requires Contains(s, sub)
    ensures |sub| <= |s|
    ensures |sub| == |s| ==> sub == s
  {
    var i: nat :| i <= |s| && MatchesAt(s, sub, i);
  }

  /** Containment survives extending the string on either side. */
  lemma ContainsExtended(p: string, s: string, q: string, sub: string)
    requires Contains(s, sub)
    ensures Contains(p + s + q, sub)
  {
    var i: nat :| i <= |s| && MatchesAt(s, sub, i);
    assert (p + s + q)[|p| + i..|p| + i + |sub|] == s[i..i + |sub|];
    assert MatchesAt(p + s + q, sub, |p| + i);
  }

  /** Containment is transitive. */
  lemma ContainsTransitive(a: string, b: string, d: string)
    requires Contains(a, b) && Contains(b, d)
    ensures Contains(a, d)
  {
    var i: nat :| i <= |a| && MatchesAt(a, b, i);
    var j: nat :| j <= |b| && MatchesAt(b, d, j);
    assert b == a[i..i + |b|];
    forall t | 0 <= t < |d| ensures a[i + j + t] == d[t] {
      assert d[t] == b[j + t] == a[i + j + t];
    }
    assert a[i + j..i + j + |d|] == d;
    assert MatchesAt(a, d, i + j);
  }

  /** Monotonicity: a command that is harmful stays harmful whatever is written
      before or after it. */
  lemma HarmfulExtended(p: string, command: string, q: string)
    requires Harmful(command)
    ensures Harmful(p + command + q)
  {
    var k :| k in Keywords && Contains(command, k);
    ContainsExtended(p, command, q, k);
  }

  // ---------------------------------------------------------------------------
  // Redundant keywords.

  /** `k` contains a different keyword of `ks`, so whenever `k` matches, that one does too. */
  predicate Redundant(ks: seq<string>, k: string)
  {
    exists k' :: k' in ks && k' != k && Contains(k, k')
  }

  /** The keywords of `ks` that are not redundant, in their order. */
  function Minimal(ks: seq<string>): (r: seq<string>)
    ensures forall k :: k in r <==> k in ks && !Redundant(ks, k)
  {
    KeepMinimal(ks, ks)
  }

  function KeepMinimal(xs: seq<string>, ks: seq<string>): (r: seq<string>)
    ensures forall k :: k in r <==> k in xs && !Redundant(ks, k)
  {
    if xs == [] then []
    else
      var rest := KeepMinimal(xs[1..], ks);
      assert xs == [xs[0]] + xs[1..];
      if Redundant(ks, xs[0]) then rest else [xs[0]] + rest
  }

  /** A keyword that occurs in the command is, or contains, a non-redundant keyword that occurs in it. */
  lemma {:induction false} MinimalWitness(ks: seq<string>, command: string, k: string)
    requires k in ks && Contains(command, k)
    ensures MatchesAny(Minimal(ks), command)
    decreases |k|
  {
    if Redundant(ks, k) {
      var k' :| k' in ks && k' != k && Contains(k, k');
      ContainedIsShorter(k, k');
      ContainsTransitive(command, k, k');
      MinimalWitness(ks, command, k');
    }
  }

  /** Dropping every keyword that contains another keyword never changes the verdict. */
  lemma MinimalPreservesVerdict(ks: seq<string>, command: string)
    ensures MatchesAny(ks, command) <==> MatchesAny(Minimal(ks), command)
  {
    if MatchesAny(ks, command) {
      var k :| k in ks && Contains(command, k);
      MinimalWitness(ks, command, k);
    }
  }

  // ---------------------------------------------------------------------------
  // Concrete verdicts.
  //
  // Deciding that a command is allowed means ruling out every one of the 117
  // keywords. This is done by a certificate: the characters of the example
  // commands and the pairs of characters that stand next to each other in them.
  // A keyword one of whose first adjacent pairs never occurs in a command
  // cannot occur in that command.

  /** The characters of the commands "ls -l", "docker ps", "cd test_folder && pwd" and "RM file". */
  const ExampleAlphabet: set<char> := {' ', '&', '-', 'M', 'R', '_', 'c', 'd', 'e', 'f', 'i', 'k', 'l', 'o', 'p', 'r', 's', 't', 'w'}

  /** The pairs of adjacent characters in those four commands. */
  const ExamplePairs: set<(char, char)> := {
      (' ', '&'), (' ', '-'), (' ', 'f'), (' ', 'p'), (' ', 't'), ('&', ' '), ('&', '&'),
      ('-', 'l'), ('M', ' '), ('R', 'M'), ('_', 'f'), ('c', 'd'), ('c', 'k'), ('d', ' '),
      ('d', 'e'), ('d', 'o'), ('e', 'r'), ('e', 's'), ('f', 'i'), ('f', 'o'), ('i', 'l'),
      ('k', 'e'), ('l', 'd'), ('l', 'e'), ('l', 's'), ('o', 'c'), ('o', 'l'), ('p', 's'),
      ('p', 'w'), ('r', ' '), ('s', ' '), ('s', 't'), ('t', '_'), ('t', 'e'), ('w', 'd')
    }

  /** A lookup table for `ExamplePairs` by first character, which makes the keyword
      checks cheap for the verifier. It only has to include every example pair
      (`FollowersAgree`); a keyword whose pair is missing from the table is then
      certainly not an example pair. */
  function Followers(a: char): string
  {
    if a == ' ' then "&-fpt"
    else if a == '&' then " &"
    else if a == '-' then "l"
    else if a == 'M' then " "
    else if a == 'R' then "M"
    else if a == '_' then "f"
    else if a == 'c' then "dk"
    else if a == 'd' then " eo"
    else if a == 'e' then "rs"
    else if a == 'f' then "io"
    else if a == 'i' then "l"
    else if a == 'k' then "e"
    else if a == 'l' then "des"
    else if a == 'o' then "cl"
    else if a == 'p' then "sw"
    else if a == 'r' then " "
    else if a == 's' then " t"
    else if a == 't' then "_e"
    else if a == 'w' then "d"
    else ""
  }

  lemma FollowersAgree(a: char, b: char)
    requires (a, b) in ExamplePairs
    ensures b in Followers(a)
  {
  }

  /** Every character of `c` is an example character and every two adjacent characters of `c` form an example pair. */
  predicate CoveredByExamples(c: string)
  {
    (forall i :: 0 <= i < |c| ==> c[i] in ExampleAlphabet) &&
    (forall i :: 0 <= i < |c| - 1 ==> (c[i], c[i + 1]) in ExamplePairs)
  }

  /** `k` is a single character that is no example character, or one of its first
      two adjacent pairs is no example pair. */
  predicate AvoidsExamples(k: string)
  {
    (|k| == 1 && k[0] !in ExampleAlphabet) ||
    (|k| >= 2 && k[1] !in Followers(k[0])) ||
    (|k| >= 3 && k[2] !in Followers(k[1]))
  }

  lemma AvoidedNotContained(c: string, k: string)
    requires CoveredByExamples(c) && AvoidsExamples(k)
    ensures !Contains(c, k)
  {
    if i: nat :| i <= |c| && MatchesAt(c, k, i) {
      assert c[i] == k[0];
      if |k| >= 2 {
        assert c[i + 1] == k[1];
        FollowersAgree(c[i], c[i + 1]);
      }
      if |k| >= 3 {
        assert c[i + 2] == k[2];
        FollowersAgree(c[i + 1], c[i + 2]);
      }
    }
  }

  lemma LinesAvoidExamples36To37()
    ensures (forall k :: k in Removal ==> AvoidsExamples(k))
         && (forall k :: k in Erasure ==> AvoidsExamples(k))
  {
  }

  lemma LinesAvoidExamples38To40()
    ensures (forall k :: k in Formatting ==> AvoidsExamples(k))
         && (forall k :: k in DiskCopy ==> AvoidsExamples(k))
         && (forall k :: k in ForkBomb ==> AvoidsExamples(k))
  {
  }

  lemma LinesAvoidExamples41To44()
    ensures (forall k :: k in PermissionChange ==> AvoidsExamples(k))
         && (forall k :: k in OwnershipChange ==> AvoidsExamples(k))
         && (forall k :: k in PowerControl ==> AvoidsExamples(k))
         && (forall k :: k in ProcessKilling ==> AvoidsExamples(k))
  {
  }

  lemma LinesAvoidExamples45To47()
    ensures (forall k :: k in NetworkTools ==> AvoidsExamples(k))
         && (forall k :: k in PipeToShell ==> AvoidsExamples(k))
         && (forall k :: k in Redirection ==> AvoidsExamples(k))
  {
  }

  lemma LinesAvoidExamples48To50()
    ensures (forall k :: k in FirewallReset ==> AvoidsExamples(k))
         && (forall k :: k in Devices ==> AvoidsExamples(k))
         && (forall k :: k in AccountFiles ==> AvoidsExamples(k))
  {
  }

  lemma LinesAvoidExamples51To52()
    ensures (forall k :: k in CronRemoval ==> AvoidsExamples(k))
         && (forall k :: k in ServiceControl ==> AvoidsExamples(k))
  {
  }

  lemma LinesAvoidExamples53To56()
    ensures (forall k :: k in Writes ==> AvoidsExamples(k))
         && (forall k :: k in Substitution ==> AvoidsExamples(k))
         && (forall k :: k in NetworkConfig ==> AvoidsExamples(k))
         && (forall k :: k in Mounting ==> AvoidsExamples(k))
  {
  }

  lemma LinesAvoidExamples57To58()
    ensures (forall k :: k in MoveCopy ==> AvoidsExamples(k))
         && (forall k :: k in MoveSystemDirs ==> AvoidsExamples(k))
  {
  }

  lemma KeywordsAvoidExamples()
    ensures forall k :: k in Keywords ==> AvoidsExamples(k)
  {
    LinesAvoidExamples36To37();
    LinesAvoidExamples38To40();
    LinesAvoidExamples41To44();
    LinesAvoidExamples45To47();
    LinesAvoidExamples48To50();
    LinesAvoidExamples51To52();
    LinesAvoidExamples53To56();
    LinesAvoidExamples57To58();
    forall k | k in Keywords ensures AvoidsExamples(k) {
      OnSomeLine(k);
    }
  }

  /** A command made only of the examples' characters and adjacent pairs is allowed. */
  lemma CoveredCommandAllowed(command: string)
    requires CoveredByExamples(command)
    ensures !Harmful(command)
  {
    KeywordsAvoidExamples();
    forall k | k in Keywords ensures !Contains(command, k) {
      AvoidedNotContained(command, k);
    }
  }

  /** The example commands of the `run_command` docstring pass the filter. */
  lemma DocstringExamplesAllowed()
    ensures !Harmful("cd test_folder && pwd")
    ensures !Harmful("ls -l")
    ensures !Harmful("docker ps")
  {
    CoveredCommandAllowed("cd test_folder && pwd");
    CoveredCommandAllowed("ls -l");
    CoveredCommandAllowed("docker ps");
  }

  /** Matching is case-sensitive: the keyword "rm" blocks "rm file" but not "RM file". */
  lemma MatchingIsCaseSensitive()
    ensures Harmful("rm file")
    ensures !Harmful("RM file")
  {
    KeywordOnLine("rm", 0);
    assert MatchesAt("rm file", "rm", 0);
    CoveredCommandAllowed("RM file");
  }

  /** Every keyword is non-empty, so the empty command is allowed. */
  lemma EmptyCommandAllowed()
    ensures forall k :: k in Keywords ==> k != ""
    ensures !Harmful("")
  {
    KeywordsAvoidExamples();
  }

  /** A string on the n-th line of the list is a keyword. */
  lemma KeywordOnLine(k: string, n: nat)
    requires n < |KeywordLines| && k in KeywordLines[n]
    ensures k in Keywords
  {
    OnSomeLine(k);
  }

  /** Commands blocked by an incidental substring: "echo hello" by "echo",
      "cat /etc/passwd" by "/etc/passwd", and "my_mv_script.sh" by "mv". */
  lemma BlockedExamples()
    ensures Harmful("echo hello")
    ensures Harmful("cat /etc/passwd")
    ensures Harmful("my_mv_script.sh")
  {
    KeywordOnLine("echo", 17);
    assert MatchesAt("echo hello", "echo", 0);
    KeywordOnLine("/etc/passwd", 14);
    assert MatchesAt("cat /etc/passwd", "/etc/passwd", 4);
    KeywordOnLine("mv", 21);
    assert MatchesAt("my_mv_script.sh", "mv", 3);
  }

  /** A keyword that contains a different keyword is left out of the minimal list. */
  lemma LongerVariantDropped(ks: seq<string>, k: string, shorter: string)
    requires k in ks && shorter in ks && shorter != k && Contains(k, shorter)
    ensures k !in Minimal(ks)
  {
  }

  /** A keyword at the head of which another keyword of the list stands is left out of the minimal list. */
  lemma ListedVariantDropped(k: string, n: nat, shorter: string, m: nat)
    requires n < |KeywordLines| && k in KeywordLines[n]
    requires m < |KeywordLines| && shorter in KeywordLines[m]
    requires |shorter| < |k| && k[..|shorter|] == shorter
    ensures k in Keywords && k !in Minimal(Keywords)
  {
    KeywordOnLine(k, n);
    KeywordOnLine(shorter, m);
    assert MatchesAt(k, shorter, 0);
    LongerVariantDropped(Keywords, k, shorter);
  }

  /** The longer variants "rm -rf", "dd if=", "echo >" and "mv /etc" begin with the
      keywords "rm", "dd", "echo" and "mv", so they are left out of the minimal list. */
  lemma LongerVariantsDropped(k: string)
    requires k == "rm -rf" || k == "dd if=" || k == "echo >" || k == "mv /etc"
    ensures k in Keywords && k !in Minimal(Keywords)
  {
    if k == "rm -rf" {
      ListedVariantDropped(k, 0, "rm", 0);
    } else if k == "dd if=" {
      ListedVariantDropped(k, 3, "dd", 3);
    } else if k == "echo >" {
      ListedVariantDropped(k, 17, "echo", 17);
    } else {
      ListedVariantDropped(k, 22, "mv", 21);
    }
  }
}
