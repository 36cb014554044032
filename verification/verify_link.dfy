/**
 The e-mail confirmation link both e-mail functions put into the message:
 `${base}/auth/v1/verify?token=${token_hash}&type=${email_action_type}&redirect_to=${redirect_to}`,
 interpolated verbatim with no URL encoding of any component.
 */
module VerifyLink {
  import opened Common

  const VerifyPath: string := "/auth/v1/verify?token="
  const TypeKey: string := "type="
  const RedirectKey: string := "redirect_to="

  datatype LinkParams = LinkParams(tokenHash: string, actionType: string, redirectTo: string)

  /** The confirm link, components pasted in as they are. */
  function Build(base: string, p: LinkParams): (link: string)
    ensures base + VerifyPath <= link
    ensures |link| == |base| + |VerifyPath| + |p.tokenHash| + 1 + |TypeKey| + |p.actionType|
                      + 1 + |RedirectKey| + |p.redirectTo|
    ensures link[|link| - |p.redirectTo|..] == p.redirectTo
  {
    base + VerifyPath + p.tokenHash + "&" + TypeKey + p.actionType + "&" + RedirectKey + p.redirectTo
  }

  /** Reads the three query parameters back out of a link built on `base`,
      splitting the query at every `&`. */
  function Parse(base: string, link: string): (r: Option<LinkParams>)
    ensures r.Some? ==> base + VerifyPath <= link
  {
    var prefix := base + VerifyPath;
    if !(prefix <= link) then None
    else
      var parts := Split(link[|prefix|..], '&');
      if |parts| == 3 && TypeKey <= parts[1] && RedirectKey <= parts[2]
      then Some(LinkParams(parts[0], parts[1][|TypeKey|..], parts[2][|RedirectKey|..]))
      else None
  }

  /** The query part of a built link splits at its two `&` separators and at
      every `&` inside the components. */
  lemma QuerySplit(base: string, p: LinkParams)
    ensures var link := Build(base, p);
      var prefix := base + VerifyPath;
      Split(link[|prefix|..], '&')
        == Split(p.tokenHash, '&') + Split(TypeKey + p.actionType, '&') + Split(RedirectKey + p.redirectTo, '&')
  {
    var link := Build(base, p);
    var prefix := base + VerifyPath;
    var a := TypeKey + p.actionType;
    var b := RedirectKey + p.redirectTo;
    assert link[|prefix|..] == p.tokenHash + ['&'] + (a + ['&'] + b);
    SplitAppend(p.tokenHash, a + ['&'] + b, '&');
    SplitAppend(a, b, '&');
  }

  /** A key followed by a value holds no `&` when neither does. */
  lemma NoAmpersand(key: string, value: string)
    requires '&' !in key && '&' !in value
    ensures '&' !in key + value
  {
    forall i | 0 <= i < |key + value|
      ensures (key + value)[i] != '&'
    {
      if i >= |key| {
        assert (key + value)[i] == value[i - |key|];
      }
    }
  }

  /** Round trip: when no component contains `&`, the link carries exactly the
      three values it was built from. */
  lemma {:induction false} ParseBuild(base: string, p: LinkParams)
    requires '&' !in p.tokenHash && '&' !in p.actionType && '&' !in p.redirectTo
    ensures Parse(base, Build(base, p)) == Some(p)
  {
    var a := TypeKey + p.actionType;
    var b := RedirectKey + p.redirectTo;
    QuerySplit(base, p);
    NoAmpersand(TypeKey, p.actionType);
    NoAmpersand(RedirectKey, p.redirectTo);
    SplitNoSep(p.tokenHash, '&');
    SplitNoSep(a, '&');
    SplitNoSep(b, '&');
    assert a[|TypeKey|..] == p.actionType;
    assert b[|RedirectKey|..] == p.redirectTo;
  }

  /** The round trip as a fact about every link: `&`-free components read
      back as themselves. */
  lemma BuildReadsBack(base: string, p: LinkParams)
    ensures '&' !in p.tokenHash && '&' !in p.actionType && '&' !in p.redirectTo ==>
              Parse(base, Build(base, p)) == Some(p)
  {
    if '&' !in p.tokenHash && '&' !in p.actionType && '&' !in p.redirectTo {
      ParseBuild(base, p);
    }
  }

  /** Building on a longer base only prefixes the link. */
  lemma BuildPrefix(pre: string, base: string, p: LinkParams)
    ensures Build(pre + base, p) == pre + Build(base, p)
  {
  }

  /** With no encoding, an `&` inside `redirect_to` (a URL with its own query,
      say) adds a fourth piece, so the link no longer reads back as the
      values it was built from. */
  lemma {:induction false} UnencodedRedirectBreaksLink(base: string, p: LinkParams)
    requires '&' in p.redirectTo
    ensures Parse(base, Build(base, p)) == None
  {
    var b := RedirectKey + p.redirectTo;
    QuerySplit(base, p);
    assert '&' in b by {
      var i :| 0 <= i < |p.redirectTo| && p.redirectTo[i] == '&';
      assert b[|RedirectKey| + i] == '&';
    }
    SeparatorGivesTwoPieces(b, '&');
  }
}
