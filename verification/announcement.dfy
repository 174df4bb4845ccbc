/**
 * The output line after which the supervisor connects its RCON client: a match,
 * anywhere in the line, of the pattern
 *   \[.+\] \[.+\] Remote Administration interface is listening on port 0.0.0.0:\d+
 * (VU.Server/Server.cs, `Process_OutputDataReceived`; the same pattern in
 * VU.Server/ServerWindow.cs). `.` matches any character but a line feed, so each
 * `.+` may hold brackets and spaces and the dots of the address stand for any
 * character; the first digit of `\d+` completes a match.
 */
module Announcement {
  import opened Text

  const LISTENING: string := " Remote Administration interface is listening on port "

  /** `\[.+\]` matches the whole of t. */
  predicate IsGroup(t: string)
  {
    |t| >= 3 && t[0] == '[' && t[|t| - 1] == ']' && forall m | 0 < m < |t| - 1 :: t[m] != '\n'
  }

  /** `\[.+\]` matches s[i..j]. */
  predicate Bracketed(s: string, i: nat, j: nat)
  {
    i <= j <= |s| && IsGroup(s[i..j])
  }

  /** `0.0.0.0:\d` matches the whole of t. */
  predicate IsAddress(t: string)
  {
    && |t| == 9
    && t[0] == '0' && t[1] != '\n' && t[2] == '0' && t[3] != '\n'
    && t[4] == '0' && t[5] != '\n' && t[6] == '0' && t[7] == ':'
    && IsDigit(t[8])
  }

  /** What follows a first bracketed group that ends at j: a space, a second group ending at k, the text, the address. */
  predicate TailAt(s: string, j: nat, k: nat)
  {
    && j < |s| && s[j] == ' ' && Bracketed(s, j + 1, k)
    && k + |LISTENING| + 9 <= |s| && s[k..k + |LISTENING|] == LISTENING
    && IsAddress(s[k + |LISTENING|..k + |LISTENING| + 9])
  }

  /** The pattern matches somewhere in the line. */
  predicate IsTriggerLine(s: string)
  {
    exists i, j, k | 0 <= i < j < k <= |s| :: Bracketed(s, i, j) && TailAt(s, j, k)
  }

  /** The text of a bracketed group. */
  function Group(t: string): (g: string)
    requires |t| >= 1 && '\n' !in t
    ensures IsGroup(g)
  {
    var g := "[" + t + "]";
    assert forall m | 0 < m < |g| - 1 :: g[m] == t[m - 1];
    g
  }

  /** The part y of x + y + z lies at offset |x|. */
  lemma Middle<T>(x: seq<T>, y: seq<T>, z: seq<T>)
    ensures (x + y + z)[|x|..|x| + |y|] == y
  {
  }

  /**
   * The line the game server prints once its RCON interface is up is a trigger line,
   * whatever precedes and follows it and whatever the bracketed fields and the port hold.
   */
  lemma AnnouncementTriggers(prefix: string, time: string, level: string, port: string, suffix: string)
    requires |time| >= 1 && '\n' !in time && |level| >= 1 && '\n' !in level
    requires |port| >= 1 && IsDigit(port[0])
    ensures IsTriggerLine(prefix + Group(time) + " " + Group(level) + LISTENING + "0.0.0.0:" + port + suffix)
  {
    var g1, g2 := Group(time), Group(level);
    var address := "0.0.0.0:" + [port[0]];
    assert IsAddress(address);
    var s := prefix + g1 + " " + g2 + LISTENING + "0.0.0.0:" + port + suffix;
    assert "0.0.0.0:" + port == address + port[1..];
    var rest := port[1..] + suffix;
    var front := prefix + g1 + " " + g2 + LISTENING;
    assert s == front + address + rest by {
      assert front + "0.0.0.0:" + port + suffix == front + ("0.0.0.0:" + port) + suffix;
      assert front + (address + port[1..]) + suffix == front + address + rest;
    }
    Regroup(prefix, g1, " ", g2, LISTENING, address, rest);
    var i := |prefix|;
    var j := i + |g1|;
    var k := j + 1 + |g2|;
    var a := k + |LISTENING|;
    Middle(prefix, g1, " " + g2 + LISTENING + address + rest);
    Middle(prefix + g1, " ", g2 + LISTENING + address + rest);
    Middle(prefix + g1 + " ", g2, LISTENING + address + rest);
    Middle(prefix + g1 + " " + g2, LISTENING, address + rest);
    Middle(prefix + g1 + " " + g2 + LISTENING, address, rest);
    assert Bracketed(s, i, j);
    assert TailAt(s, j, k);
  }

  /** A sum of seven parts, grouped left to right, split after each of its first five parts. */
  lemma Regroup<T>(x0: seq<T>, x1: seq<T>, x2: seq<T>, x3: seq<T>, x4: seq<T>, x5: seq<T>, x6: seq<T>)
    ensures x0 + x1 + x2 + x3 + x4 + x5 + x6 == x0 + x1 + (x2 + x3 + x4 + x5 + x6)
    ensures x0 + x1 + x2 + x3 + x4 + x5 + x6 == x0 + x1 + x2 + (x3 + x4 + x5 + x6)
    ensures x0 + x1 + x2 + x3 + x4 + x5 + x6 == x0 + x1 + x2 + x3 + (x4 + x5 + x6)
    ensures x0 + x1 + x2 + x3 + x4 + x5 + x6 == x0 + x1 + x2 + x3 + x4 + (x5 + x6)
  {
  }

  /** A line without an opening bracket is not a trigger line. */
  lemma NoBracketNoTrigger(s: string)
    requires '[' !in s
    ensures !IsTriggerLine(s)
  {
    forall i, j | 0 <= i < j <= |s| ensures !Bracketed(s, i, j) {
      assert s[i] in s;
    }
  }

  /** The announcement needs a digit after the colon: a line that stops there is not a trigger line. */
  lemma NoPortNoTrigger(s: string)
    requires forall m | 0 <= m < |s| :: !IsDigit(s[m])
    ensures !IsTriggerLine(s)
  {
  }
}
