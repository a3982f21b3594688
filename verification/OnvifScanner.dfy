/** Harvesting the stream addresses of a Hanwha camera, and what is published for them. */
module OnvifScanner {
  import opened Common

  const CHANNELS := 4
  const CREDENTIALS := "admin:5hanwha!@"

  predicate Occurs(pat: string, s: string, at: nat) {
    at + |pat| <= |s| && s[at..at + |pat|] == pat
  }

  /** Position of the first occurrence, as std::string::find gives it. */
  method Find(s: string, pat: string) returns (pos: Option<nat>)
    ensures pos == First(s, pat, 0)
  {
    var i := 0;
    while i + |pat| <= |s|
      invariant First(s, pat, i) == First(s, pat, 0)
    {
      if s[i..i + |pat|] == pat {
        return Some(i);
      }
      i := i + 1;
    }
    return None;
  }

  function First(s: string, pat: string, from: nat): (pos: Option<nat>)
    ensures pos.Some? ==> from <= pos.value && Occurs(pat, s, pos.value)
    ensures pos.Some? ==> forall k :: from <= k < pos.value ==> !Occurs(pat, s, k)
    ensures pos.None? ==> forall k :: from <= k ==> !Occurs(pat, s, k)
    decreases |s| - from
  {
    if from + |pat| > |s| then None
    else if s[from..from + |pat|] == pat then Some(from)
    else First(s, pat, from + 1)
  }

  /** The reply without the line ends after it; the single-channel request drops one '\n' only. */
  function Trim(s: string): (t: string)
    ensures t <= s && (t != [] ==> t[|t| - 1] != '\n' && t[|t| - 1] != '\r')
    ensures forall i :: |t| <= i < |s| ==> s[i] == '\n' || s[i] == '\r'
  {
    if s != [] && (s[|s| - 1] == '\n' || s[|s| - 1] == '\r') then Trim(s[..|s| - 1]) else s
  }

  function TrimOne(s: string): string {
    if s != [] && s[|s| - 1] == '\n' then s[..|s| - 1] else s
  }

  predicate Usable(text: string) {
    text != [] && First(text, "Error", 0).None?
  }

  function Authorize(url: string): string {
    match First(url, "//", 0)
    case None => url
    case Some(at) => url[..at + 2] + CREDENTIALS + url[at + 2..]
  }

  /** What the camera answers: per channel and to the request without a channel. None if no process could be started. */
  datatype Replies = Replies(channel: nat -> Option<string>, single: Option<string>)

  function SingleUrl(r: Replies): string {
    match r.single
    case None => ""
    case Some(text) => if Usable(TrimOne(text)) then Authorize(TrimOne(text)) else ""
  }

  predicate Answers(r: Replies, ch: nat) {
    r.channel(ch).Some? && Usable(Trim(r.channel(ch).value))
  }

  /** The addresses collected from channel `ch` on. */
  function Harvest(r: Replies, ch: nat): seq<string>
    requires ch <= CHANNELS
    decreases CHANNELS - ch
  {
    if ch == CHANNELS then []
    else if Answers(r, ch) then [Authorize(Trim(r.channel(ch).value))] + Harvest(r, ch + 1)
    else if ch == 0 && r.channel(0).Some? && SingleUrl(r) != "" then [SingleUrl(r)]
    else []
  }

  method DropLineEnds(s: string) returns (t: string)
    ensures t == Trim(s)
  {
    t := s;
    while t != [] && (t[|t| - 1] == '\n' || t[|t| - 1] == '\r')
      invariant Trim(t) == Trim(s)
      decreases |t|
    {
      t := t[..|t| - 1];
    }
  }

  method InsertCredentials(s: string) returns (url: string)
    ensures url == Authorize(s)
  {
    url := s;
    var slash := Find(s, "//");
    if slash.Some? {
      url := s[..slash.value + 2] + CREDENTIALS + s[slash.value + 2..];
    }
  }

  method GetRtspUrls(r: Replies) returns (urls: seq<string>)
    ensures urls == Harvest(r, 0)
  {
    hide Trim, Authorize, SingleUrl;
    urls := [];
    var ch := 0;
    while ch < CHANNELS
      invariant 0 <= ch <= CHANNELS
      invariant urls + Harvest(r, ch) == Harvest(r, 0)
    {
      var reply := r.channel(ch);
      if reply.None? {
        break;
      }
      var result := DropLineEnds(reply.value);
      var error := Find(result, "Error");
      if result == [] || error.Some? {
        if ch == 0 {
          var fallback := GetSingleRtspUrl(r);
          if fallback != "" {
            urls := urls + [fallback];
          }
        }
        break;
      }
      result := InsertCredentials(result);
      ConcatAssociative(urls, [result], Harvest(r, ch + 1));
      urls := urls + [result];
      ch := ch + 1;
    }
  }

  method GetSingleRtspUrl(r: Replies) returns (url: string)
    ensures url == SingleUrl(r)
  {
    if r.single.None? {
      return "";
    }
    var result := r.single.value;
    if result != [] && result[|result| - 1] == '\n' {
      result := result[..|result| - 1];
    }
    var error := Find(result, "Error");
    if result == [] || error.Some? {
      return "";
    }
    url := InsertCredentials(result);
  }

  /**
    * At most four addresses, and they belong to channels 0, 1, ... without a gap: the harvest stops
    * at the first channel that does not answer. Only channel 0 may be replaced, by the single request.
    */
  lemma {:induction false} HarvestIsPrefix(r: Replies, ch: nat)
    requires ch <= CHANNELS
    ensures var urls := Harvest(r, ch);
            && |urls| <= CHANNELS - ch
            && (ch + |urls| < CHANNELS ==> !Answers(r, ch + |urls|) || (ch == 0 && |urls| == 1 && !Answers(r, 0)))
            && (forall i :: 0 <= i < |urls| ==>
                  if Answers(r, ch + i) then urls[i] == Authorize(Trim(r.channel(ch + i).value))
                  else ch == 0 && |urls| == 1 && urls[i] == SingleUrl(r))
    decreases CHANNELS - ch
  {
    hide Trim, Authorize, SingleUrl, Answers;
    if ch < CHANNELS && Answers(r, ch) {
      HarvestIsPrefix(r, ch + 1);
      var urls, more := Harvest(r, ch), Harvest(r, ch + 1);
      assert forall i :: 1 <= i < |urls| ==> urls[i] == more[i - 1];
    }
  }

  /** A harvest fails exactly when channel 0 gives nothing usable and neither does the single request. */
  lemma HarvestFails(r: Replies)
    ensures Harvest(r, 0) == [] <==> !Answers(r, 0) && (r.channel(0).None? || SingleUrl(r) == "")
  {
    hide SingleUrl, Answers, Authorize;
  }

  lemma FirstIs(s: string, pat: string, at: nat)
    requires Occurs(pat, s, at) && forall k :: 0 <= k < at ==> !Occurs(pat, s, k)
    ensures First(s, pat, 0) == Some(at)
  {
    var pos := First(s, pat, 0);
    assert pos.Some? ==> pos.value == at;
  }

  lemma NotHere(pat: string, s: string, at: nat)
    requires pat != "" && at < |s| && s[at] != pat[0]
    ensures !Occurs(pat, s, at)
  {
  }

  /** The credentials come after the scheme, before the host; an address without a scheme is left alone. */
  lemma CredentialsAfterScheme(scheme: string, rest: string)
    requires '/' !in scheme
    ensures Authorize(scheme + "//" + rest) == scheme + "//" + "admin:5hanwha!@" + rest
    ensures Authorize(scheme) == scheme
  {
    var url := scheme + "//" + rest;
    assert url[|scheme|..|scheme| + 2] == "//";
    forall k | 0 <= k < |scheme|
      ensures !Occurs("//", url, k) && !Occurs("//", scheme, k)
    {
      assert url[k] == scheme[k] && scheme[k] in scheme;
      NotHere("//", url, k);
      NotHere("//", scheme, k);
    }
    FirstIs(url, "//", |scheme|);
    assert url[..|scheme| + 2] == scheme + "//" && url[|scheme| + 2..] == rest;
  }

  /** A reply counts when there is something in it and nowhere the word "Error". */
  lemma UsableExactly(text: string)
    ensures Usable(text) <==> text != "" && forall k :: 0 <= k ==> !Occurs("Error", text, k)
  {
  }

  /** The line ends a reply comes with are dropped, and only they. */
  lemma {:induction false} Trimmed(text: string, ends: string)
    requires text != "" && text[|text| - 1] != '\n' && text[|text| - 1] != '\r'
    requires forall i :: 0 <= i < |ends| ==> ends[i] == '\n' || ends[i] == '\r'
    ensures Trim(text + ends) == text
    ensures TrimOne(text) == text && TrimOne(text + "\n") == text && TrimOne(text + "\r\n") == text + "\r"
  {
    if ends == [] {
      assert text + ends == text;
    } else {
      var all, n := text + ends, |ends| - 1;
      assert all[..|all| - 1] == text + ends[..n] && all[|all| - 1] == ends[n];
      Trimmed(text, ends[..n]);
    }
    assert (text + "\n")[..|text|] == text;
    assert (text + "\r\n")[..|text| + 1] == text + "\r";
  }

  /** A host and path as a camera may answer it, followed by line ends, after a scheme such as "rtsp:". */
  ghost predicate Proper(scheme: string, host: string) {
    && '/' !in scheme && host != "" && host[|host| - 1] != '\n' && host[|host| - 1] != '\r'
    && forall k :: 0 <= k ==> !Occurs("Error", scheme + "//" + host, k)
  }

  /** A camera whose channels answer with their addresses gets exactly those, at most four, each with the credentials. */
  lemma AddressesHarvested(r: Replies, scheme: string, hosts: seq<string>, ends: string)
    requires 0 < |hosts| <= 4 && forall i :: 0 <= i < |ends| ==> ends[i] == '\n' || ends[i] == '\r'
    requires forall i :: 0 <= i < |hosts| ==>
               Proper(scheme, hosts[i]) && r.channel(i) == Some(scheme + "//" + hosts[i] + ends)
    requires |hosts| < 4 ==> r.channel(|hosts|) == None || r.channel(|hosts|) == Some("")
    ensures |Harvest(r, 0)| == |hosts|
    ensures forall i :: 0 <= i < |hosts| ==> Harvest(r, 0)[i] == scheme + "//" + "admin:5hanwha!@" + hosts[i]
  {
    hide Trim, Authorize, Usable, Proper;
    forall i | 0 <= i < |hosts|
      ensures Answers(r, i) && Authorize(Trim(r.channel(i).value)) == scheme + "//" + "admin:5hanwha!@" + hosts[i]
    {
      OneAddress(scheme, hosts[i], ends);
    }
    if |hosts| < 4 {
      NoAddress();
    }
    HarvestIsPrefix(r, 0);
  }

  lemma OneAddress(scheme: string, host: string, ends: string)
    requires Proper(scheme, host) && forall i :: 0 <= i < |ends| ==> ends[i] == '\n' || ends[i] == '\r'
    ensures var t := Trim(scheme + "//" + host + ends);
            Usable(t) && Authorize(t) == scheme + "//" + "admin:5hanwha!@" + host
  {
    hide Trim, Authorize, Usable, Occurs;
    var url := scheme + "//" + host;
    assert url[|url| - 1] == host[|host| - 1];
    Trimmed(url, ends);
    UsableExactly(url);
    CredentialsAfterScheme(scheme, host);
  }

  /** A camera with one channel gets its single address in the same way, with one line end dropped. */
  lemma SingleHarvested(r: Replies, scheme: string, host: string)
    requires Proper(scheme, host) && r.channel(0) == Some("")
    requires r.single == Some(scheme + "//" + host + "\n") || r.single == Some(scheme + "//" + host)
    ensures Harvest(r, 0) == [scheme + "//" + "admin:5hanwha!@" + host]
  {
    hide Trim, Authorize, Usable, Occurs, TrimOne;
    var url := scheme + "//" + host;
    assert url[|url| - 1] == host[|host| - 1];
    Trimmed(url, "");
    UsableExactly(url);
    CredentialsAfterScheme(scheme, host);
    NoAddress();
  }

  lemma NoAddress()
    ensures !Usable(Trim(""))
  {
  }

  /** What is published for channel `i` of a camera. */
  function ChannelInfo(ip: string, urls: seq<string>, i: nat): DeviceInfo
    requires i < |urls|
  {
    DeviceInfo(Hanwha(ip, i), ip, HANWHA, true, urls[i], 0, -1)
  }

  class Scanner {
    var failCount: map<string, nat>

    constructor ()
      ensures failCount == map[]
    {
      failCount := map[];
    }

    /**
      * One candidate address of either scan, given the answer of the duplicate check for its first
      * channel. The result is what is handed to the registry, channel by channel.
      */
    method Candidate(ip: string, registered: bool, r: Replies) returns (found: seq<DeviceInfo>)
      modifies this
      ensures registered || (ip in old(failCount) && old(failCount)[ip] >= 1) ==> found == []
      ensures !registered && !(ip in old(failCount) && old(failCount)[ip] >= 1) ==>
                && |found| == |Harvest(r, 0)|
                && forall i :: 0 <= i < |found| ==>
                     && found[i] == ChannelInfo(ip, Harvest(r, 0), i)
                     && found[i].id == Hanwha(ip, i) && found[i].ip == ip && found[i].kind == HANWHA && found[i].online
                     && found[i].sourceUrl == Harvest(r, 0)[i]
      ensures Failures(ip) == old(Failures(ip)) +
                if !registered && old(Failures(ip)) == 0 && Harvest(r, 0) == [] then 1 else 0
      ensures forall other :: other != ip ==> Failures(other) == old(Failures(other))
    {
      found := [];
      if registered {
        return;
      }
      if ip !in failCount {
        failCount := failCount[ip := 0];
      }
      if failCount[ip] >= 1 {
        return;
      }
      var urls := GetRtspUrls(r);
      if urls == [] {
        failCount := failCount[ip := failCount[ip] + 1];
        return;
      }
      var i := 0;
      while i < |urls|
        invariant 0 <= i <= |urls| && |found| == i
        invariant forall k :: 0 <= k < i ==> found[k] == ChannelInfo(ip, urls, k)
      {
        found := found + [DeviceInfo(Hanwha(ip, i), ip, HANWHA, true, urls[i], 0, -1)];
        i := i + 1;
      }
    }

    ghost function Failures(ip: string): nat
      reads this
    {
      if ip in failCount then failCount[ip] else 0
    }
  }
}
