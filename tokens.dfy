// Tokens: which connections are bound to each token.

module Tokens {
  import opened Util
  import opened Context
  import opened SetMaps

  class Tokens {
    var bindings: map<string, set<ChannelContext>>

    /** Every bound token is non-blank and has at least one connection. */
    ghost predicate Valid()
      reads this
    {
      NoEmptySets(bindings) && forall k :: k in bindings ==> !IsBlank(Some(k))
    }

    constructor ()
      ensures bindings == map[] && Valid()
    {
      bindings := map[];
    }

    /** The connections bound to `token`, for the `modifies` clause of UnbindAll. */
    function BoundTo(token: Option<string>): set<ChannelContext>
      reads this
    {
      if token.Some? then Members(bindings, token.value) else {}
    }

    /**
     * `bind`: a no-op for short connections and blank tokens; otherwise the
     * connection joins the token's set, created on first use, and records the
     * id. A set it joined earlier under another token keeps it.
     */
    method Bind(token: Option<string>, cc: ChannelContext)
      modifies this, cc`token
      requires Valid()
      ensures Valid()
      ensures cc.isShortConnection || IsBlank(token) ==> bindings == old(bindings) && cc.token == old(cc.token)
      ensures !cc.isShortConnection && !IsBlank(token) ==>
        bindings == WithMember(old(bindings), token.value, cc) && cc.token == token
    {
      if cc.isShortConnection {
        return;
      }
      if IsBlank(token) {
        return;
      }
      var u := token.value;
      if u !in bindings {
        bindings := bindings[u := {}];
      }
      bindings := bindings[u := bindings[u] + {cc}];
      cc.token := token;
    }

    /** `find`: nothing for short connections, blank tokens or unknown tokens; else the token's set. */
    function Find(isShortConnection: bool, token: Option<string>): (r: Option<set<ChannelContext>>)
      reads this
      ensures r.Some? <==> !isShortConnection && !IsBlank(token) && token.value in bindings
      ensures r.Some? ==> r.value == bindings[token.value] && (Valid() ==> r.value != {})
    {
      if isShortConnection || IsBlank(token) then None
      else if token.value in bindings then Some(bindings[token.value])
      else None
    }

    /**
     * `unbind(channelContext)`: the token is cleared first, then the
     * connection leaves the token's set and the key goes once the set is
     * empty. With a blank token or no set under it, nothing changes.
     */
    method Unbind(cc: ChannelContext)
      modifies this, cc`token
      requires Valid()
      ensures Valid()
      ensures cc.isShortConnection || IsBlank(old(cc.token)) || old(cc.token).value !in old(bindings) ==>
        bindings == old(bindings) && cc.token == old(cc.token)
      ensures !cc.isShortConnection && !IsBlank(old(cc.token)) && old(cc.token).value in old(bindings) ==>
        bindings == WithoutMember(old(bindings), old(cc.token).value, cc) && cc.token.None?
    {
      if cc.isShortConnection {
        return;
      }
      var token := cc.token;
      if IsBlank(token) {
        return;
      }
      var u := token.value;
      if u !in bindings {
        return;
      }
      cc.token := None;
      var rest := bindings[u] - {cc};
      if rest == {} {
        bindings := bindings - {u};
      } else {
        bindings := bindings[u := rest];
      }
    }

    /**
     * `unbind(tioConfig, token)`: every connection under the token has its
     * token cleared, and the key is removed.
     */
    method UnbindAll(isShortConnection: bool, token: Option<string>)
      modifies this, BoundTo(token)`token
      requires Valid()
      ensures Valid()
      ensures isShortConnection || IsBlank(token) || token.value !in old(bindings) ==> bindings == old(bindings)
      ensures !isShortConnection && !IsBlank(token) && token.value in old(bindings) ==>
        bindings == old(bindings) - {token.value} && forall c :: c in old(bindings[token.value]) ==> c.token.None?
    {
      if isShortConnection || IsBlank(token) {
        return;
      }
      var u := token.value;
      if u !in bindings {
        return;
      }
      var members := bindings[u];
      var rest := members;
      while rest != {}
        invariant rest <= members
        invariant bindings == old(bindings)
        invariant forall c :: c in members - rest ==> c.token.None?
        decreases rest
      {
        var c :| c in rest;
        c.token := None;
        rest := rest - {c};
      }
      bindings := bindings - {u};
    }
  }

  /**
   * Binding a connection to a second token leaves it in the first token's set:
   * `bind` never unbinds.
   */
  lemma BindKeepsEarlierBinding(m: map<string, set<ChannelContext>>, u: string, other: string, cc: ChannelContext)
    requires other != u && cc in Members(m, other)
    ensures cc in Members(WithMember(m, u, cc), other) && cc in Members(WithMember(m, u, cc), u)
  {
    MembersAfterWith(m, u, cc, other);
    MembersAfterWith(m, u, cc, u);
  }
}
