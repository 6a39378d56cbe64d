// Users: which connections are bound to each user id.

module Users {
  import opened Util
  import opened Context
  import opened SetMaps

  class Users {
    var bindings: map<string, set<ChannelContext>>

    /** Every bound user id is non-blank and has at least one connection. */
    ghost predicate Valid()
      reads this
    {
      NoEmptySets(bindings) && forall k :: k in bindings ==> !IsBlank(Some(k))
    }

    constructor ()
      ensures bindings == map[] && Valid()
    {
      bindings := map[];
    }

    /** The connections bound to `userId`, for the `modifies` clause of UnbindAll. */
    function BoundTo(userId: Option<string>): set<ChannelContext>
      reads this
    {
      if userId.Some? then Members(bindings, userId.value) else {}
    }

    /**
     * `bind`: a no-op for short connections and blank ids; otherwise the
     * connection joins the id's set, created on first use, and records the
     * id. A set it joined earlier under another id keeps it.
     */
    method Bind(userId: Option<string>, cc: ChannelContext)
      modifies this, cc`userId
      requires Valid()
      ensures Valid()
      ensures cc.isShortConnection || IsBlank(userId) ==> bindings == old(bindings) && cc.userId == old(cc.userId)
      ensures !cc.isShortConnection && !IsBlank(userId) ==>
        bindings == WithMember(old(bindings), userId.value, cc) && cc.userId == userId
    {
      if cc.isShortConnection {
        return;
      }
      if IsBlank(userId) {
        return;
      }
      var u := userId.value;
      if u !in bindings {
        bindings := bindings[u := {}];
      }
      bindings := bindings[u := bindings[u] + {cc}];
      cc.userId := userId;
    }

    /** `find`: nothing for short connections, blank ids or unknown ids; else the id's set. */
    function Find(isShortConnection: bool, userId: Option<string>): (r: Option<set<ChannelContext>>)
      reads this
      ensures r.Some? <==> !isShortConnection && !IsBlank(userId) && userId.value in bindings
      ensures r.Some? ==> r.value == bindings[userId.value] && (Valid() ==> r.value != {})
    {
      if isShortConnection || IsBlank(userId) then None
      else if userId.value in bindings then Some(bindings[userId.value])
      else None
    }

    /**
     * `unbind(channelContext)`: the connection leaves its user's set, the
     * key goes once the set is empty, and the id is cleared. With no set
     * under the id, nothing changes, the id included.
     */
    method Unbind(cc: ChannelContext)
      modifies this, cc`userId
      requires Valid()
      ensures Valid()
      ensures cc.isShortConnection || IsBlank(old(cc.userId)) || old(cc.userId).value !in old(bindings) ==>
        bindings == old(bindings) && cc.userId == old(cc.userId)
      ensures !cc.isShortConnection && !IsBlank(old(cc.userId)) && old(cc.userId).value in old(bindings) ==>
        bindings == WithoutMember(old(bindings), old(cc.userId).value, cc) && cc.userId.None?
    {
      if cc.isShortConnection {
        return;
      }
      var userId := cc.userId;
      if IsBlank(userId) {
        return;
      }
      var u := userId.value;
      if u !in bindings {
        return;
      }
      var rest := bindings[u] - {cc};
      if rest == {} {
        bindings := bindings - {u};
      } else {
        bindings := bindings[u := rest];
      }
      cc.userId := None;
    }

    /**
     * `unbind(tioConfig, userid)`: every connection under the id has its
     * id cleared, and the key is removed.
     */
    method UnbindAll(isShortConnection: bool, userId: Option<string>)
      modifies this, BoundTo(userId)`userId
      requires Valid()
      ensures Valid()
      ensures isShortConnection || IsBlank(userId) || userId.value !in old(bindings) ==> bindings == old(bindings)
      ensures !isShortConnection && !IsBlank(userId) && userId.value in old(bindings) ==>
        bindings == old(bindings) - {userId.value} && forall c :: c in old(bindings[userId.value]) ==> c.userId.None?
    {
      if isShortConnection || IsBlank(userId) {
        return;
      }
      var u := userId.value;
      if u !in bindings {
        return;
      }
      var members := bindings[u];
      var rest := members;
      while rest != {}
        invariant rest <= members
        invariant bindings == old(bindings)
        invariant forall c :: c in members - rest ==> c.userId.None?
        decreases rest
      {
        var c :| c in rest;
        c.userId := None;
        rest := rest - {c};
      }
      bindings := bindings - {u};
    }
  }

  /**
   * Binding a connection to a second id leaves it in the first id's set:
   * `bind` never unbinds.
   */
  lemma BindKeepsEarlierBinding(m: map<string, set<ChannelContext>>, u: string, other: string, cc: ChannelContext)
    requires other != u && cc in Members(m, other)
    ensures cc in Members(WithMember(m, u, cc), other) && cc in Members(WithMember(m, u, cc), u)
  {
    MembersAfterWith(m, u, cc, other);
    MembersAfterWith(m, u, cc, u);
  }
}
