/** SetProcessTitle writes over the process's own argument strings
    (src/bladepsgi.cpp:282-315). Memory is one array of characters; `argv`
    holds the addresses of the argument strings. */
module ProcessTitle {
  import opened PidTables

  const NUL: char := '\0'

  /** Where the string at `p` ends: the first NUL from `p` on. */
  function StringEnd(mem: seq<char>, p: nat): (e: nat)
    requires p <= |mem|
    ensures p <= e <= |mem|
    ensures forall i :: p <= i < e ==> mem[i] != NUL
    ensures e < |mem| ==> mem[e] == NUL
    decreases |mem| - p
  {
    if p == |mem| || mem[p] == NUL then p else StringEnd(mem, p + 1)
  }

  function StringAt(mem: seq<char>, p: nat): string
    requires p <= |mem|
  {
    mem[p..StringEnd(mem, p)]
  }

  /** Every argument is a terminated string inside memory. */
  ghost predicate Terminated(mem: seq<char>, argv: seq<nat>) {
    forall i :: 0 <= i < |argv| ==> argv[i] <= |mem| && StringEnd(mem, argv[i]) < |mem|
  }

  /** The end of the run of adjacent strings that starts with the string ending
      at `end` and goes on with `rest`. */
  function RunEnd(mem: seq<char>, rest: seq<nat>, end: nat): (e: nat)
    requires end < |mem| && forall i :: 0 <= i < |rest| ==> rest[i] <= |mem| && StringEnd(mem, rest[i]) < |mem|
    ensures end <= e < |mem|
  {
    if rest == [] || rest[0] != end + 1 then end else RunEnd(mem, rest[1..], StringEnd(mem, rest[0]))
  }

  /** Argument `i` is followed at once by the next one, up to `k`. */
  ghost predicate Adjacent(mem: seq<char>, argv: seq<nat>, k: nat)
    requires Terminated(mem, argv) && k < |argv|
  {
    forall i :: 0 < i <= k ==> argv[i] == StringEnd(mem, argv[i - 1]) + 1
  }

  /** The block ends with the last argument that can be reached from the first
      one by going from string to adjacent string. */
  lemma {:induction false} BlockEndsWithLastAdjacent(mem: seq<char>, argv: seq<nat>) returns (k: nat)
    requires argv != [] && Terminated(mem, argv)
    ensures k < |argv| && Adjacent(mem, argv, k)
    ensures BlockEnd(mem, argv) == StringEnd(mem, argv[k])
    ensures k + 1 < |argv| ==> argv[k + 1] != StringEnd(mem, argv[k]) + 1
    decreases |argv|
  {
    hide StringEnd;
    if |argv| == 1 || argv[1] != StringEnd(mem, argv[0]) + 1 {
      k := 0;
    } else {
      var j := BlockEndsWithLastAdjacent(mem, argv[1..]);
      k := j + 1;
      forall i | 0 < i <= k
        ensures argv[i] == StringEnd(mem, argv[i - 1]) + 1
      {
        if i > 1 { assert argv[1..][i - 1] == argv[i] && argv[1..][i - 2] == argv[i - 1]; }
      }
    }
  }

  /** The last character of the contiguous argument block. */
  function BlockEnd(mem: seq<char>, argv: seq<nat>): (e: nat)
    requires argv != [] && Terminated(mem, argv)
    ensures argv[0] <= e < |mem|
  {
    RunEnd(mem, argv[1..], StringEnd(mem, argv[0]))
  }

  method StrLen(mem: array<char>, p: nat) returns (n: nat)
    requires p <= mem.Length && StringEnd(mem[..], p) < mem.Length
    ensures p + n == StringEnd(mem[..], p)
  {
    n := 0;
    while mem[p + n] != NUL
      invariant p + n < mem.Length
      invariant StringEnd(mem[..], p + n) == StringEnd(mem[..], p)
      decreases mem.Length - n
    {
      n := n + 1;
    }
  }

  /** The loop over the arguments. */
  method FindBlockEnd(mem: array<char>, argv: seq<nat>) returns (end: nat)
    requires argv != [] && Terminated(mem[..], argv)
    ensures end == BlockEnd(mem[..], argv)
  {
    var len := StrLen(mem, argv[0]);
    end := argv[0] + len;
    var i := 1;
    while i < |argv| && end + 1 == argv[i]
      invariant 1 <= i <= |argv|
      invariant argv[0] <= end < mem.Length
      invariant BlockEnd(mem[..], argv) == RunEnd(mem[..], argv[i..], end)
      decreases |argv| - i
    {
      assert argv[i..][0] == argv[i] && argv[i..][1..] == argv[i + 1..];
      len := StrLen(mem, argv[i]);
      end := argv[i] + len;
      i := i + 1;
    }
  }

  function Shown(title: string, max: nat): string {
    if |title| <= max then title else title[..max]
  }

  /** `text` filled up with NULs to `n` characters. */
  function Padded(text: string, n: nat): (image: string)
    requires |text| <= n
    ensures |image| == n && image[..|text|] == text
    ensures forall i :: |text| <= i < n ==> image[i] == NUL
  {
    text + seq(n - |text|, _ => NUL)
  }

  /** One call on untouched arguments: nothing outside the contiguous argument
      block changes, and the title can be seen at argv[0], cut to what fits,
      exactly when the block has room for one character to detach it from the
      environment. When an empty argument block is followed by the environment
      the length wraps around to size_t's maximum, the resized title is empty,
      and all that happens is that the block loses its terminator. */
  method SetProcessTitle(mem: array<char>, argv: seq<nat>, environment: Option<nat>, prefix: string, value: string)
    requires argv != [] && Terminated(mem[..], argv)
    modifies mem
    ensures var first, end := argv[0], BlockEnd(old(mem[..]), argv);
      var room: int := end - first - if environment == Some(end + 1) then 1 else 0;
      var title := prefix + ": " + value;
      && (forall i :: 0 <= i < mem.Length && !(first <= i <= end) ==> mem[i] == old(mem[i]))
      && (room >= 0 && NUL !in prefix && NUL !in value ==>
            StringAt(mem[..], first) == if |title| <= room then title else title[..room])
      && (room >= 0 && |title| <= room ==> forall i :: first + |title| <= i <= first + room ==> mem[i] == NUL)
      && (environment == Some(end + 1) ==> mem[end] == ' ')
      && (room < 0 ==> first == end && mem[first] == ' ')
  {
    hide BlockEnd, RunEnd, StringEnd, StringAt, Terminated, Padded;
    var first := argv[0];
    var end := FindBlockEnd(mem, argv);
    var maxlen: int := end - first;
    if environment == Some(end + 1) {
      maxlen := maxlen - 1;
      mem[end] := ' ';
    }
    if maxlen < 0 { return; }
    var title := prefix + ": " + value;
    var image := Padded(Shown(title, maxlen), maxlen + 1);
    Copy(mem, first, image);
    assert forall i :: first <= i < first + |image| ==> mem[i] == mem[first..first + |image|][i - first];
    if NUL !in prefix && NUL !in value {
      assert NUL !in title;
      Visible(mem[..], first, image, Shown(title, maxlen));
    }
  }

  /** memcpy. */
  method Copy(mem: array<char>, at: nat, image: string)
    requires at + |image| <= mem.Length
    modifies mem
    ensures mem[at..at + |image|] == image
    ensures forall i :: 0 <= i < mem.Length && !(at <= i < at + |image|) ==> mem[i] == old(mem[i])
  {
    forall j | 0 <= j < |image| { mem[at + j] := image[j]; }
  }

  /** A NUL-free text followed by NUL is what can be seen. */
  lemma Visible(mem: seq<char>, p: nat, image: string, text: string)
    requires p + |image| <= |mem| && mem[p..p + |image|] == image
    requires |text| < |image| && text == image[..|text|] && image[|text|] == NUL && NUL !in text
    ensures StringAt(mem, p) == text
  {
  }
}
