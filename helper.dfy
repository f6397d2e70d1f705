/**
 * Scraping the portal's anti-forgery token (client/helper.go): fetch the
 * landing page, parse it, and search the tree depth-first for the hidden
 * input named `__RequestVerificationToken`.
 *
 * `Find` is the specification of the search, `Visited`/`FirstSupplied` an
 * independent pre-order description of it, and `ProcessHtml` the search as
 * the source runs it: a recursive walk that updates the token found so far
 * and returns early.
 */
module Helper {
  import opened Wrappers
  import opened Foreign
  import opened Html
  import opened Http

  const TokenFieldName := "__RequestVerificationToken"

  /** An attribute naming the anti-forgery field, compared exactly. */
  predicate NamesTokenField(a: Attribute) {
    a.key == "name" && a.val == TokenFieldName
  }

  /** An `input` element with at least one attribute naming the anti-forgery field. */
  predicate IsTokenInput(n: Node) {
    n.kind == ElementNode && n.data == "input" &&
    exists k :: 0 <= k < |n.attr| && NamesTokenField(n.attr[k])
  }

  /** The value of the first attribute whose key is `value`, if any. */
  function FirstValue(attrs: seq<Attribute>): Option<string> {
    if attrs == [] then None
    else if attrs[0].key == "value" then Some(attrs[0].val)
    else FirstValue(attrs[1..])
  }

  /** The search ends at `n`: a token input that has a value attribute (possibly empty). */
  predicate Stops(n: Node) {
    IsTokenInput(n) && FirstValue(n.attr).Some?
  }

  /** `n` supplies the token: the search stops there with a non-empty value. */
  predicate Supplies(n: Node) {
    Stops(n) && FirstValue(n.attr).value != ""
  }

  /** The token the search of `n` yields, `""` when there is none. */
  function Find(n: Node): string
    decreases n
  {
    if Stops(n) then FirstValue(n.attr).value else FindIn(n.children)
  }

  function FindIn(cs: seq<Node>): string
    decreases cs
  {
    if cs == [] then ""
    else
      var t := Find(cs[0]);
      if t != "" then t else FindIn(cs[1..])
  }

  /** The nodes the search examines, in pre-order: a stopping input hides its children. */
  function Visited(n: Node): seq<Node>
    decreases n
  {
    [n] + (if Stops(n) then [] else VisitedIn(n.children))
  }

  function VisitedIn(cs: seq<Node>): seq<Node>
    decreases cs
  {
    if cs == [] then [] else Visited(cs[0]) + VisitedIn(cs[1..])
  }

  /** The value of the first node of `s` that supplies a token, `""` when none does. */
  function FirstSupplied(s: seq<Node>): (t: string)
    ensures t == "" <==> forall i :: 0 <= i < |s| ==> !Supplies(s[i])
    ensures t != "" ==> exists i :: 0 <= i < |s| && Supplies(s[i]) && FirstValue(s[i].attr).value == t &&
                                    forall j :: 0 <= j < i ==> !Supplies(s[j])
  {
    if s == [] then ""
    else if Supplies(s[0]) then FirstValue(s[0].attr).value
    else
      var t := FirstSupplied(s[1..]);
      assert forall i :: 1 <= i < |s| ==> s[i] == s[1..][i - 1];
      t
  }

  lemma {:induction false} FirstSuppliedAppend(a: seq<Node>, b: seq<Node>)
    ensures FirstSupplied(a + b) == if FirstSupplied(a) != "" then FirstSupplied(a) else FirstSupplied(b)
  {
    if a != [] {
      assert (a + b)[1..] == a[1..] + b;
      FirstSuppliedAppend(a[1..], b);
    } else {
      assert a + b == b;
    }
  }

  /**
   * The search returns the value of the first node, in pre-order over the nodes
   * it examines, that is a token input with a non-empty first value attribute.
   */
  lemma {:induction false} FindIsFirstInPreOrder(n: Node)
    ensures Find(n) == FirstSupplied(Visited(n))
    decreases n
  {
    if !Stops(n) {
      FindInIsFirstInPreOrder(n.children);
      assert Visited(n)[1..] == VisitedIn(n.children);
    }
  }

  lemma {:induction false} FindInIsFirstInPreOrder(cs: seq<Node>)
    ensures FindIn(cs) == FirstSupplied(VisitedIn(cs))
    decreases cs
  {
    if cs != [] {
      FindIsFirstInPreOrder(cs[0]);
      FindInIsFirstInPreOrder(cs[1..]);
      FirstSuppliedAppend(Visited(cs[0]), VisitedIn(cs[1..]));
    }
  }

  lemma {:induction false} FirstValueAt(attrs: seq<Attribute>, j: nat)
    requires j < |attrs| && attrs[j].key == "value"
    requires forall k :: 0 <= k < j ==> attrs[k].key != "value"
    ensures FirstValue(attrs) == Some(attrs[j].val)
  {
    if j > 0 {
      FirstValueAt(attrs[1..], j - 1);
    }
  }

  lemma {:induction false} NoValueAttribute(attrs: seq<Attribute>)
    requires forall k :: 0 <= k < |attrs| ==> attrs[k].key != "value"
    ensures FirstValue(attrs) == None
  {
    if attrs != [] {
      NoValueAttribute(attrs[1..]);
    }
  }

  /**
   * The recursive walk of the source. `found` is the token found so far (the
   * captured variable of the closure): once it is non-empty nothing more is visited.
   */
  method ProcessHtml(n: Node, found: string) returns (token: string)
    ensures token == if found != "" then found else Find(n)
    decreases n
  {
    token := found;
    if token != "" {
      return;
    }
    if n.kind == ElementNode && n.data == "input" {
      var i := 0;
      while i < |n.attr|
        invariant 0 <= i <= |n.attr|
        invariant token == ""
        invariant (exists k :: 0 <= k < i && NamesTokenField(n.attr[k])) ==> FirstValue(n.attr).None?
      {
        if n.attr[i].key == "name" && n.attr[i].val == TokenFieldName {
          assert NamesTokenField(n.attr[i]);
          var j := 0;
          while j < |n.attr|
            invariant 0 <= j <= |n.attr|
            invariant forall k :: 0 <= k < j ==> n.attr[k].key != "value"
          {
            if n.attr[j].key == "value" {
              if token == "" {
                token := n.attr[j].val;
                FirstValueAt(n.attr, j);
                return;
              }
            }
            j := j + 1;
          }
          NoValueAttribute(n.attr);
        }
        i := i + 1;
      }
    }
    assert !Stops(n);
    var c := 0;
    while c < |n.children|
      invariant 0 <= c <= |n.children|
      invariant FindIn(n.children) == if token != "" then token else FindIn(n.children[c..])
    {
      if token != "" {
        return;
      }
      assert n.children[c..][1..] == n.children[c + 1..];
      token := ProcessHtml(n.children[c], token);
      c := c + 1;
    }
  }

  /** The request that fetches the landing page through transport `r`. */
  function LandingPageRequest(r: Transport): Request {
    Request(Get, BaseURL, r.authorization, r.verificationToken, NoBody)
  }

  /**
   * What `getVerificationToken` returns for a fetched page: the transport or
   * parse error, or the token the search finds; a page without the token
   * yields `""` and no error.
   */
  function VerificationTokenOf(p: Page): (r: Fallible<string>)
    ensures r.Err? <==> !p.Parsed?
    ensures !p.Parsed? ==> r == Err(p.error)
    ensures p.Parsed? ==> r == Ok(FirstSupplied(Visited(p.doc)))
    ensures p.Parsed? && (forall m :: m in Visited(p.doc) ==> !Supplies(m)) ==> r == Ok("")
    ensures p.Parsed? && r.value != "" ==> exists m :: m in Visited(p.doc) && Supplies(m) && FirstValue(m.attr) == Some(r.value)
  {
    match p
    case GetFailed(e) => Err(e)
    case ParseFailed(e) => Err(e)
    case Parsed(doc) =>
      FindIsFirstInPreOrder(doc);
      Ok(Find(doc))
  }

  /** `getVerificationToken`: one GET of the landing page through `r`, then the search. */
  method GetVerificationToken(r: Transport, portal: Portal) returns (res: Fallible<string>)
    modifies portal
    ensures portal.log == old(portal.log) + [LandingPageRequest(r)]
    ensures res == VerificationTokenOf(portal.answers.page(old(portal.log), LandingPageRequest(r)))
  {
    var page := portal.GetPage(LandingPageRequest(r));
    match page
    case GetFailed(e) =>
      return Err(e);
    case ParseFailed(e) =>
      return Err(e);
    case Parsed(doc) =>
      var token := ProcessHtml(doc, "");
      return Ok(token);
  }
}
