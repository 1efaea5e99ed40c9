/** The text of a request: how the clients write it and how the server reads it. */
module Requests {
  import opened Types
  import opened Text

  /** `Load` keeps its text, since reading its floating-point numbers is not modelled.
      `Overrun` stands for a word that does not fit the buffer the server reads it into. */
  datatype Request =
    | Host(dprop: Dprop)
    | Load(text: string)
    | Status(host: string, up: bool, dprop: Dprop)
    | Monitor
    | Bad
    | Overrun

  /** The most characters that the buffers for a dprop, an address and a state hold. */
  const DPROP_MAX := 64
  const ADDRESS_MAX := 63
  const STATE_MAX := 9

  predicate StartsWith(s: string, w: string) {
    |w| <= |s| && s[..|w|] == w
  }

  /** The first `n` words of a text, or all of them if there are fewer. */
  function Words(s: string, n: nat): (ws: seq<string>)
    ensures |ws| <= n && forall i :: 0 <= i < |ws| ==> ws[i] != [] && SpaceFree(ws[i])
    decreases n
  {
    if n == 0 then []
    else
      match ReadWord(s)
      case None => []
      case Some(w) => [w.value] + Words(w.rest, n - 1)
  }

  /** The loop of a scan for at most `n` words. */
  method Scan(s: string, n: nat) returns (ws: seq<string>)
    ensures ws == Words(s, n)
  {
    hide ReadWord;
    ws := [];
    var rest := s;
    for i := 0 to n
      invariant |ws| == i && Words(s, n) == ws + Words(rest, n - i)
    {
      var w := ReadWord(rest);
      if w == None {
        return;
      }
      ws := ws + [w.value.value];
      rest := w.value.rest;
    }
  }

  function HostRequest(ws: seq<string>): Request {
    if ws == [] then Bad
    else if |ws[0]| > ADDRESS_MAX || (|ws| > 1 && |ws[1]| > DPROP_MAX) then Overrun
    else Host(if |ws| > 1 then ws[1] else "")
  }

  function StatusRequest(ws: seq<string>): Request {
    if (|ws| > 0 && |ws[0]| > ADDRESS_MAX) || (|ws| > 1 && |ws[1]| > STATE_MAX) || (|ws| > 2 && |ws[2]| > DPROP_MAX)
    then Overrun
    else if |ws| < 2 then Bad
    else Status(ws[0], StartsWith(ws[1], "up"), if |ws| > 2 then ws[2] else "")
  }

  /** What a text means to the server.  Any state word that does not start with "up" acts as
      "down". */
  function Meaning(s: string): Request {
    if StartsWith(s, "host") then HostRequest(Words(s[4..], 2))
    else if StartsWith(s, "load") then Load(s)
    else if StartsWith(s, "status") then StatusRequest(Words(s[6..], 3))
    else if StartsWith(s, "monitor") then Monitor
    else Bad
  }

  /** Reading a request. */
  method ParseMsg(s: string) returns (r: Request)
    ensures r == Meaning(s)
  {
    hide Words;
    if StartsWith(s, "host") {
      var ws := Scan(s[4..], 2);
      r := HostRequest(ws);
    } else if StartsWith(s, "load") {
      r := Load(s);
    } else if StartsWith(s, "status") {
      var ws := Scan(s[6..], 3);
      r := StatusRequest(ws);
    } else if StartsWith(s, "monitor") {
      r := Monitor;
    } else {
      r := Bad;
    }
  }

  // ------------------------------------------------------------------------- what clients write

  function HostText(address: string, dprop: Dprop): string {
    "host " + (address + (" " + dprop))
  }

  function StatusText(address: string, up: bool, dprop: Dprop): string {
    "status " + (address + (" " + ((if up then "up" else "down") + (" " + dprop))))
  }

  predicate Address(w: string) {
    w != [] && SpaceFree(w) && |w| <= ADDRESS_MAX
  }

  predicate Short(d: Dprop) {
    SpaceFree(d) && |d| <= DPROP_MAX
  }

  lemma NoWord(n: nat)
    ensures Words(" ", n) == []
  {
    assert " "[1..] == "" && SkipSpace("") == "";
    assert SkipSpace(" ") == "";
  }

  /** The last word of a request is found even though it may be empty. */
  lemma LastWord(d: Dprop, n: nat)
    requires SpaceFree(d)
    ensures Words(" " + d, n + 1) == if d == "" then [] else [d]
  {
    if d == "" {
      assert " " + d == " ";
      NoWord(n + 1);
    } else {
      ReadsWord(d, "");
      assert " " + d + "" == " " + d;
      hide ReadWord;
      assert Words("", n) == [] by { NoMoreWords(n); }
    }
  }

  lemma NoMoreWords(n: nat)
    ensures Words("", n) == []
  {
    assert SkipSpace("") == "";
  }

  lemma NextWord(w: string, rest: string, n: nat)
    requires w != [] && SpaceFree(w) && 0 < n
    ensures Words(" " + (w + (" " + rest)), n) == [w] + Words(" " + rest, n - 1)
  {
    ReadsWord(w, " " + rest);
    assert " " + w + (" " + rest) == " " + (w + (" " + rest));
    hide ReadWord;
  }

  /** Whatever the server reads, the dprop of a request is one short word. */
  lemma MeaningIsShort(s: string)
    ensures Meaning(s).Host? ==> Short(Meaning(s).dprop)
    ensures Meaning(s).Status? ==> Address(Meaning(s).host) && Short(Meaning(s).dprop)
  {
    hide Words;
  }

  /** A client's request for a cpu is understood exactly when its dprop is one word of at most 64
      characters; the empty dprop is. */
  lemma HostRoundTrip(ip: Ip, d: Dprop)
    ensures HostText(Ntoa(ip), d) == "host " + Ntoa(ip) + " " + d
    ensures Meaning(HostText(Ntoa(ip), d)) == Host(d) <==> SpaceFree(d) && |d| <= 64
  {
    var s := HostText(Ntoa(ip), d);
    if Short(d) {
      assert s[..4] == "host" && s[4..] == " " + (Ntoa(ip) + (" " + d));
      NtoaIsWord(ip);
      hide Words, Ntoa;
      NextWord(Ntoa(ip), d, 2);
      LastWord(d, 0);
    } else {
      MeaningIsShort(s);
    }
  }

  lemma StatusWords(address: string, op: string, d: Dprop)
    requires Address(address) && op != "" && SpaceFree(op) && SpaceFree(d)
    ensures Words(" " + (address + (" " + (op + (" " + d)))), 3) == [address, op] + if d == "" then [] else [d]
  {
    hide Words;
    NextWord(address, op + (" " + d), 3);
    NextWord(op, d, 2);
    LastWord(d, 0);
  }

  lemma StatusBegins(tail: string)
    ensures Meaning("status" + tail) == StatusRequest(Words(tail, 3))
  {
    var s := "status" + tail;
    hide Words;
    assert s[..6] == "status" && s[6..] == tail;
    assert s[..4][0] == 's';
  }

  /** Any state word that does not begin with "up" means "down". */
  lemma StateWords(address: string, word: string, d: Dprop)
    requires address != "" && SpaceFree(address) && |address| <= 63
    requires word != "" && SpaceFree(word) && |word| <= 9 && SpaceFree(d) && |d| <= 64
    ensures Meaning("status" + (" " + (address + (" " + (word + (" " + d))))))
         == Status(address, |word| >= 2 && word[0] == 'u' && word[1] == 'p', d)
  {
    assert StartsWith(word, "up") == (|word| >= 2 && word[0] == 'u' && word[1] == 'p');
    hide Meaning, Words;
    StatusWords(address, word, d);
    StatusBegins(" " + (address + (" " + (word + (" " + d)))));
  }

  /** An administrator's request is understood exactly when the address, of at most 63
      characters, and the dprop, of at most 64, are words; the dprop may be empty. */
  lemma StatusRoundTrip(address: string, up: bool, d: Dprop)
    ensures var word := if up then "up" else "down";
      StatusText(address, up, d) == "status" + (" " + (address + (" " + (word + (" " + d)))))
    ensures Meaning(StatusText(address, up, d)) == Status(address, up, d) <==>
      address != "" && SpaceFree(address) && |address| <= 63 && SpaceFree(d) && |d| <= 64
  {
    if Address(address) && Short(d) {
      hide Meaning;
      StateWords(address, if up then "up" else "down", d);
    } else {
      MeaningIsShort(StatusText(address, up, d));
    }
  }

  lemma SameHead(s: string, w: string)
    requires w != "" && StartsWith(s, w)
    ensures s != "" && s[0] == w[0]
  {
    assert s[..|w|][0] == s[0];
  }

  lemma OtherHead(s: string, w: string)
    requires w != "" && (s == "" || s[0] != w[0])
    ensures !StartsWith(s, w)
  {
    if StartsWith(s, w) {
      SameHead(s, w);
    }
  }

  /** The request for a report. */
  lemma MonitorRequest()
    ensures Meaning("monitor") == Monitor
  {
    OtherHead("monitor", "host");
    OtherHead("monitor", "load");
    OtherHead("monitor", "status");
    assert "monitor"[..7] == "monitor";
    hide Words;
  }

  lemma LoadRequest(s: string)
    ensures Meaning("load" + s) == Load("load" + s)
  {
    var load := "load" + s;
    assert load[..4] == "load";
    OtherHead(load, "host");
    hide Words;
  }

  /** Requests without the words they need, and texts that begin with none of the four kinds. */
  lemma BadRequest(s: string)
    ensures SkipSpace(s) == "" ==> Meaning("host" + s) == Bad && Meaning("status" + s) == Bad
    ensures s == "" || s[0] !in {'h', 'l', 's', 'm'} ==> Meaning(s) == Bad
  {
    if SkipSpace(s) == "" {
      Wordless(s);
    }
    if s == "" || s[0] !in {'h', 'l', 's', 'm'} {
      OtherHead(s, "host");
      OtherHead(s, "load");
      OtherHead(s, "status");
      OtherHead(s, "monitor");
    }
    hide StartsWith, Words, SkipSpace;
  }

  lemma Wordless(s: string)
    requires SkipSpace(s) == ""
    ensures Meaning("host" + s) == Bad && Meaning("status" + s) == Bad
  {
    assert Words(s, 2) == [] && Words(s, 3) == [];
    hide Words;
    StatusBegins(s);
    HostBegins(s);
    hide Meaning;
  }

  lemma HostBegins(s: string)
    ensures Meaning("host" + s) == HostRequest(Words(s, 2))
  {
    var host := "host" + s;
    assert host[..4] == "host" && host[4..] == s;
    hide Words;
  }
}
