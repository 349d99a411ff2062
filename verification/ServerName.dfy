/** Choosing a TLS context by server name: an exact name, or a wildcard for its first labels. */
module ServerName {

  function TrimDots(s: string): (t: string)
    ensures t == "" || t[|t| - 1] != '.'
    ensures t <= s && forall i :: |t| <= i < |s| ==> s[i] == '.'
  {
    if s != "" && s[|s| - 1] == '.' then TrimDots(s[..|s| - 1]) else s
  }

  /** `strings.Split` and `strings.Join` at dots. */
  function FirstDot(s: string): (d: nat)
    ensures d <= |s| && (d < |s| ==> s[d] == '.') && forall i :: 0 <= i < d ==> s[i] != '.'
  {
    if s == "" || s[0] == '.' then 0 else 1 + FirstDot(s[1..])
  }

  function Split(s: string): (ls: seq<string>)
    ensures ls != []
    decreases |s|
  {
    var d := FirstDot(s);
    if d == |s| then [s] else [s[..d]] + Split(s[d + 1..])
  }

  function Join(ls: seq<string>): string {
    if ls == [] then "" else if |ls| == 1 then ls[0] else ls[0] + "." + Join(ls[1..])
  }

  lemma {:induction false} JoinSplit(s: string)
    ensures Join(Split(s)) == s
    decreases |s|
  {
    hide Split, Join, FirstDot;
    var d := FirstDot(s);
    SplitStep(s);
    if d == |s| {
      JoinOne(s);
    } else {
      JoinSplit(s[d + 1..]);
      JoinMore(s[..d], Split(s[d + 1..]));
      CutAtDot(s, d);
    }
  }

  lemma JoinOne(s: string)
    ensures Join([s]) == s
  {}

  lemma JoinMore(first: string, ls: seq<string>)
    requires ls != []
    ensures Join([first] + ls) == first + "." + Join(ls)
  {
    assert ([first] + ls)[1..] == ls;
  }

  lemma CutAtDot(s: string, d: nat)
    requires d < |s| && s[d] == '.'
    ensures s == s[..d] + "." + s[d + 1..]
  {}

  lemma {:induction false} SplitStep(s: string)
    ensures var d := FirstDot(s); Split(s) == if d == |s| then [s] else [s[..d]] + Split(s[d + 1..])
  {
    hide FirstDot;
  }

  /** The dot after label i, and what follows it. */
  lemma {:induction false} DotAfter(s: string, i: nat) returns (d: nat)
    requires i + 1 < |Split(s)|
    ensures d < |s| && s[d] == '.' && s[d + 1..] == Join(Split(s)[i + 1..])
    decreases |s|
  {
    hide Join, FirstDot;
    d := FirstDot(s);
    var rest := s[d + 1..];
    SplitStep(s);
    assert Split(s)[i + 1..] == Split(rest)[i..];
    if i == 0 {
      JoinSplit(rest);
      assert Split(rest)[0..] == Split(rest);
    } else {
      var d' := DotAfter(rest, i - 1);
      assert s[d + 1 + d' + 1..] == rest[d' + 1..];
      d := d + 1 + d';
    }
  }

  /** Every dot ends a label. */
  lemma {:induction false} LabelBefore(s: string, d: nat) returns (i: nat)
    requires d < |s| && s[d] == '.'
    ensures i + 1 < |Split(s)| && s[d + 1..] == Join(Split(s)[i + 1..])
    decreases |s|
  {
    hide Split, Join, FirstDot;
    var e := FirstDot(s);
    var rest := s[e + 1..];
    SplitStep(s);
    if d == e {
      JoinSplit(rest);
      assert Split(s)[1..] == Split(rest);
      i := 0;
    } else {
      var i' := LabelBefore(rest, d - e - 1);
      assert rest[d - e - 1 + 1..] == s[d + 1..];
      assert Split(s)[i' + 2..] == Split(rest)[i' + 1..];
      i := i' + 1;
    }
  }

  /** The name is listed, or a star followed by the rest of the name from some dot is. */
  ghost predicate Listed(matches: set<string>, name: string) {
    name in matches || exists d :: 0 <= d < |name| && name[d] == '.' && "*" + name[d..] in matches
  }

  method MatchedServerName(matches: set<string>, lower: string -> string, sn: string) returns (r: bool)
    ensures r <==> Listed(matches, TrimDots(lower(sn)))
  {
    var name := lower(sn);
    while |name| > 0 && name[|name| - 1] == '.'
      invariant TrimDots(name) == TrimDots(lower(sn))
      decreases |name|
    {
      name := name[..|name| - 1];
    }
    if name in matches {
      return true;
    }
    var labels := Split(name);
    var i := 0;
    while i < |labels| - 1
      invariant 0 <= i <= |labels| - 1 && |labels| == |Split(name)|
      invariant labels[i..] == Split(name)[i..]
      invariant forall k: nat :: k < i ==> Candidate(Split(name), k) !in matches
    {
      labels := labels[i := "*"];
      var candidate := Join(labels[i..]);
      assert labels[i + 1..] == Split(name)[i + 1..];
      assert labels[i..] == ["*"] + Split(name)[i + 1..];
      assert candidate == Candidate(Split(name), i);
      if candidate in matches {
        CandidateIsListed(matches, name, i);
        return true;
      }
      i := i + 1;
    }
    NoCandidate(matches, name);
    return false;
  }

  /** The wildcard for the first i+1 labels. */
  function Candidate(labels: seq<string>, i: nat): string
    requires i < |labels|
  {
    Join(["*"] + labels[i + 1..])
  }

  lemma CandidateIs(s: string, i: nat, d: nat)
    requires i + 1 < |Split(s)| && d < |s| && s[d] == '.' && s[d + 1..] == Join(Split(s)[i + 1..])
    ensures Candidate(Split(s), i) == "*" + s[d..]
  {
    var tail := Split(s)[i + 1..];
    assert (["*"] + tail)[1..] == tail;
    assert s[d..] == "." + s[d + 1..];
    assert "*" + s[d..] == "*" + "." + s[d + 1..];
  }

  lemma CandidateIsListed(matches: set<string>, name: string, i: nat)
    requires i + 1 < |Split(name)| && Candidate(Split(name), i) in matches
    ensures Listed(matches, name)
  {
    var d := DotAfter(name, i);
    CandidateIs(name, i, d);
  }

  lemma NoCandidate(matches: set<string>, name: string)
    requires forall k: nat :: k < |Split(name)| - 1 ==> Candidate(Split(name), k) !in matches
    ensures Listed(matches, name) ==> name in matches
  {
    forall d | 0 <= d < |name| && name[d] == '.'
      ensures "*" + name[d..] !in matches
    {
      var i := LabelBefore(name, d);
      CandidateIs(name, i, d);
    }
  }
}
