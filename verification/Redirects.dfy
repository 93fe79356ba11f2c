/** What an error reply asks the client to do. */
module Redirects {
  import opened Types
  import opened Scanning
  import opened Replies
  import EndpointNames

  type Endpoint = (string, nat)

  datatype Redirect =
    | Ask(endpoint: Option<Endpoint>)
    | Moved(slot: int, endpoint: Option<Endpoint>)
    | TryAgain
    | ClusterDown
    | Other

  /** The reply is for the caller: it asks for nothing the client can do. */
  predicate ForCaller(r: Redirect) {
    match r
    case Ask(endpoint) => endpoint.None?
    case Moved(slot, endpoint) => slot < 0 || slot >= SLOT_NUMBER || endpoint.None?
    case TryAgain => false
    case ClusterDown => true
    case Other => true
  }

  function Lower(c: char): char {
    if 'A' <= c <= 'Z' then c - 'A' + 'a' else c
  }

  /** `text` starts with `word`, in upper or lower case. */
  predicate Starts(text: string, word: string) {
    |word| <= |text| && forall i :: 0 <= i < |word| ==> Lower(text[i]) == Lower(word[i])
  }

  /** Reads "%d %s"; what cannot be read stays 0 or empty. */
  function ScanRedirect(s: string): (int, string) {
    match ScanInt(s)
    case None => (0, "")
    case Some((slot, rest)) => (slot, Word(SkipSpace(rest)))
  }

  /** Reads the text of an error reply. */
  function Classify(text: string): Redirect {
    if Starts(text, "ASK") then
      var (_, addr) := ScanRedirect(if |text| < 4 then "" else text[4..]);
      Ask(EndpointNames.PickNameOf(addr))
    else if Starts(text, "MOVED") then
      var (slot, addr) := ScanRedirect(if |text| < 6 then "" else text[6..]);
      Moved(slot, EndpointNames.PickNameOf(addr))
    else if Starts(text, "TRYAGAIN") then TryAgain
    else if Starts(text, "CLUSTERDOWN") then ClusterDown
    else Other
  }

  // ---- What the words of an error reply mean.

  /** The text begins with a word of capitals, in any mixture of case. */
  predicate Begins(text: string, word: string) {
    |word| <= |text| && forall i :: 0 <= i < |word| ==>
      text[i] == word[i] || ('A' <= word[i] <= 'Z' && text[i] == word[i] - 'A' + 'a')
  }

  lemma StartsIs(text: string, word: string)
    requires forall c <- word :: 'A' <= c <= 'Z'
    ensures Starts(text, word) <==> Begins(text, word)
  {
    if Starts(text, word) {
      forall i | 0 <= i < |word| ensures text[i] == word[i] || text[i] == word[i] - 'A' + 'a' {
        assert Lower(text[i]) == Lower(word[i]) && word[i] in word;
      }
    }
    if Begins(text, word) {
      forall i | 0 <= i < |word| ensures Lower(text[i]) == Lower(word[i]) {
        assert word[i] in word;
      }
    }
  }

  /** The first word decides, in any mixture of case; a text that begins with none of the four is for the
      caller. */
  lemma WordsDecide(text: string)
    ensures Classify(text).Ask? <==> Begins(text, "ASK")
    ensures Classify(text).Moved? <==> Begins(text, "MOVED")
    ensures Classify(text).TryAgain? <==> Begins(text, "TRYAGAIN")
    ensures Classify(text).ClusterDown? <==> Begins(text, "CLUSTERDOWN")
    ensures Classify(text).Other? <==> !(Begins(text, "ASK") || Begins(text, "MOVED") || Begins(text, "TRYAGAIN")
                                         || Begins(text, "CLUSTERDOWN"))
  {
    hide Starts, Begins, ScanRedirect, EndpointNames.PickNameOf;
    StartsIs(text, "ASK");
    StartsIs(text, "MOVED");
    StartsIs(text, "TRYAGAIN");
    StartsIs(text, "CLUSTERDOWN");
    OneWord(text);
  }

  lemma OneWord(text: string)
    ensures Begins(text, "ASK") ==> !Begins(text, "MOVED") && !Begins(text, "TRYAGAIN") && !Begins(text, "CLUSTERDOWN")
    ensures Begins(text, "MOVED") ==> !Begins(text, "TRYAGAIN") && !Begins(text, "CLUSTERDOWN")
    ensures Begins(text, "TRYAGAIN") ==> !Begins(text, "CLUSTERDOWN")
  {
    if |text| > 0 {
      FirstLetter(text, "ASK");
      FirstLetter(text, "MOVED");
      FirstLetter(text, "TRYAGAIN");
      FirstLetter(text, "CLUSTERDOWN");
    }
  }

  lemma FirstLetter(text: string, word: string)
    requires text != "" && word != "" && 'A' <= word[0] <= 'Z'
    ensures Begins(text, word) ==> text[0] == word[0] || text[0] == word[0] - 'A' + 'a'
  {
  }

  /** A request to try again, whatever follows the word. */
  lemma TryAgainRead(word: string, rest: string)
    requires |word| == |"TRYAGAIN"| && Begins(word, "TRYAGAIN")
    ensures Classify(word + rest) == TryAgain
  {
    hide Classify;
    PrefixBegins(word, rest, "TRYAGAIN");
    WordsDecide(word + rest);
  }

  /** The news that the cluster is down. */
  lemma ClusterDownRead(word: string, rest: string)
    requires |word| == |"CLUSTERDOWN"| && Begins(word, "CLUSTERDOWN")
    ensures Classify(word + rest) == ClusterDown
  {
    hide Classify;
    PrefixBegins(word, rest, "CLUSTERDOWN");
    WordsDecide(word + rest);
  }

  lemma PrefixBegins(text: string, rest: string, word: string)
    requires Begins(text, word)
    ensures Begins(text + rest, word)
  {
  }

  /** The reply is an error with a text. */
  predicate Speaks(r: Option<Reply>) {
    r.Some? && r.value.ErrorLine? && r.value.text.Some?
  }

  /** The reply is an error whose text begins with the word. */
  predicate Says(r: Option<Reply>, word: string) {
    Speaks(r) && Begins(r.value.text.value, word)
  }

  /** A word without NUL stands in the buffer where it stands in the C string. */
  lemma TextBegins(text: string, word: string)
    requires forall c <- word :: 'A' <= c <= 'Z'
    ensures Begins(CString(text), word) <==> Begins(text, word)
  {
    hide CString;
    var t := CString(text);
    if Begins(text, word) {
      forall i | 0 <= i < |word| ensures text[i] != '\0' {
        assert word[i] in word;
      }
    }
    assert forall i :: 0 <= i < |t| ==> t[i] == text[i];
  }

  // ---- Redirections.

  /** An address as it stands in a redirection: no colon and no white space. */
  predicate Plain(ip: string) {
    ':' !in ip && forall c <- ip :: !IsSpace(c)
  }

  lemma NameIsWord(ip: string, port: nat)
    requires forall c <- ip :: !IsSpace(c)
    ensures EndpointNames.NameOf(ip, port) != "" && forall c <- EndpointNames.NameOf(ip, port) :: !IsSpace(c)
  {
    hide Decimal;
    forall c <- EndpointNames.NameOf(ip, port) ensures !IsSpace(c) {
      assert c in ip || c == ':' || c in Decimal(port);
    }
  }

  lemma ScanRedirectOf(slot: nat, name: string)
    requires name != "" && forall c <- name :: !IsSpace(c)
    ensures ScanRedirect(Decimal(slot) + " " + name) == (slot, name)
  {
    hide Decimal, ScanInt, Word;
    assert Decimal(slot) + " " + name == Decimal(slot) + (" " + name);
    ScanDecimal(slot, " " + name);
    assert (" " + name)[1..] == name;
    assert name[0] in name;
    assert SkipSpace(" " + name) == SkipSpace(name) == name;
    assert name + "" == name;
    WordOf(name, "");
  }

  /** The text of a redirection as the server writes it. */
  function Written(word: string, slot: nat, ip: string, port: nat): string {
    word + (Decimal(slot) + " " + EndpointNames.NameOf(ip, port))
  }

  lemma WrittenText(word: string, slot: nat, ip: string, port: nat)
    ensures Written(word, slot, ip, port) == word + Decimal(slot) + " " + ip + ":" + Decimal(port)
  {
    hide Decimal;
    assert word + (Decimal(slot) + " " + (ip + ":" + Decimal(port)))
      == word + Decimal(slot) + " " + ip + ":" + Decimal(port);
  }

  lemma {:induction false} TrimKeeps(s: string, c: char)
    requires c in EndpointNames.Trim(s)
    ensures c in s
  {
    if s != "" && EndpointNames.IsBlank(s[0]) {
      TrimKeeps(s[1..], c);
    }
  }

  lemma {:induction false} WordPlain(s: string)
    ensures forall c <- Word(s) :: !IsSpace(c)
  {
    if s != "" && !IsSpace(s[0]) {
      WordPlain(s[1..]);
    }
  }

  /** Whatever is read as an address is plain. */
  lemma PickedPlain(s: string, ip: string, port: nat)
    requires EndpointNames.PickNameOf(ScanRedirect(s).1) == Some((ip, port))
    ensures Plain(ip)
  {
    hide ScanInt, Word, Decimal;
    var addr := ScanRedirect(s).1;
    var it := EndpointNames.FirstColon(addr);
    assert forall c <- addr :: !IsSpace(c) by {
      if ScanInt(s).Some? {
        WordPlain(SkipSpace(ScanInt(s).value.1));
      }
    }
    forall c <- ip ensures c in addr[..it] {
      TrimKeeps(addr[..it], c);
    }
  }

  /** The slot and the address of a redirection are read as they were meant exactly if the address is plain. */
  lemma WrittenRead(slot: nat, ip: string, port: nat)
    requires port <= EndpointNames.PORT_MAX
    ensures var (slot', addr) := ScanRedirect(Decimal(slot) + " " + EndpointNames.NameOf(ip, port));
      slot' == slot && EndpointNames.PickNameOf(addr) == Some((ip, port)) <==> Plain(ip)
  {
    hide Decimal, ScanRedirect, EndpointNames.PickNameOf, EndpointNames.NameOf;
    var s := Decimal(slot) + " " + EndpointNames.NameOf(ip, port);
    if Plain(ip) {
      NameIsWord(ip, port);
      ScanRedirectOf(slot, EndpointNames.NameOf(ip, port));
      assert ip == "" || ip[0] in ip;
      EndpointNames.PickMakeName(ip, port);
    } else if EndpointNames.PickNameOf(ScanRedirect(s).1) == Some((ip, port)) {
      PickedPlain(s, ip, port);
    }
  }

  /** A MOVED reply is read as it was meant exactly if its address is plain: not so an IPv6 address. */
  lemma MovedRead(slot: nat, ip: string, port: nat)
    requires port <= EndpointNames.PORT_MAX
    ensures Classify(Written("MOVED ", slot, ip, port)) == Moved(slot, Some((ip, port))) <==> Plain(ip)
  {
    hide Decimal, ScanRedirect, EndpointNames.PickNameOf, EndpointNames.NameOf;
    var rest := Decimal(slot) + " " + EndpointNames.NameOf(ip, port);
    assert ("MOVED " + rest)[6..] == rest;
    assert ("MOVED " + rest)[0] == 'M';
    WrittenRead(slot, ip, port);
  }

  /** So is an ASK reply. */
  lemma AskRead(slot: nat, ip: string, port: nat)
    requires port <= EndpointNames.PORT_MAX
    ensures Classify(Written("ASK ", slot, ip, port)) == Ask(Some((ip, port))) <==> Plain(ip)
  {
    hide Decimal, ScanRedirect, EndpointNames.PickNameOf, EndpointNames.NameOf;
    var rest := Decimal(slot) + " " + EndpointNames.NameOf(ip, port);
    assert ("ASK " + rest)[4..] == rest;
    WrittenRead(slot, ip, port);
    SlotRead(slot, EndpointNames.NameOf(ip, port));
  }

  lemma SlotRead(slot: nat, name: string)
    ensures ScanRedirect(Decimal(slot) + " " + name).0 == slot
  {
    hide Decimal, ScanInt, Word;
    assert Decimal(slot) + " " + name == Decimal(slot) + (" " + name);
    ScanDecimal(slot, " " + name);
  }

  /** A redirection to an address that starts with a colon, as the IPv6 loopback does in its short form, is
      read as one to the sending host at port 0. */
  lemma ColonRead(slot: nat, ip: string, port: nat)
    requires forall c <- ip :: !IsSpace(c)
    requires |ip| >= 2 && ip[0] == ':' && ip[1] == ':'
    ensures Classify(Written("MOVED ", slot, ip, port)) == Moved(slot, Some(("", 0)))
  {
    hide Decimal, ScanRedirect, EndpointNames.PickNameOf, EndpointNames.NameOf;
    var name := EndpointNames.NameOf(ip, port);
    var rest := Decimal(slot) + " " + name;
    assert ("MOVED " + rest)[6..] == rest;
    assert ("MOVED " + rest)[0] == 'M';
    NameIsWord(ip, port);
    ScanRedirectOf(slot, name);
    ColonName(ip, port);
  }

  lemma ColonName(ip: string, port: nat)
    requires |ip| >= 2 && ip[0] == ':' && ip[1] == ':'
    ensures EndpointNames.PickNameOf(EndpointNames.NameOf(ip, port)) == Some(("", 0))
  {
    hide Decimal;
    var name := EndpointNames.NameOf(ip, port);
    assert name[0] == ':' && name[1..][0] == ':';
    assert EndpointNames.FirstColon(name) == 0;
    assert ScanInt(name[1..]) == None;
  }
}
