// Ips: which connections come from each client ip, with one lock object
// per ip that has connections.

module Ips {
  import opened Util
  import opened Context
  import opened SetMaps

  class Ips {
    var ipmap: map<string, set<ChannelContext>>
    /** The ips that have a lock object in `ipLocks`. */
    var ipLocks: set<string>

    /**
     * No ip maps to an empty set, and an ip has a lock exactly while it has
     * a set, so lock objects never outlive their ip.
     */
    ghost predicate Valid()
      reads this
    {
      NoEmptySets(ipmap) && ipLocks == ipmap.Keys
    }

    constructor ()
      ensures ipmap == map[] && ipLocks == {} && Valid()
    {
      ipmap, ipLocks := map[], {};
    }

    /** The ip `bind` and `unbind` key a connection by, when it has a client node. */
    static function IpOf(cc: ChannelContext): Option<string>
      reads cc
    {
      if cc.clientNode.Some? then Some(cc.clientNode.value.host) else None
    }

    /** Whether `bind` and `unbind` register the connection under its ip. */
    static predicate Registrable(cc: ChannelContext)
      reads cc
    {
      !cc.isShortConnection && cc.clientNode.Some?
      && cc.clientNode.value.host != UnknownAddressIp && !IsBlank(Some(cc.clientNode.value.host))
    }

    /**
     * `bind`: a no-op for a null context, a short connection, or an unknown
     * or blank ip; otherwise the connection joins its ip's set, and the ip's
     * set and lock are created together on first use. Reading the ip of a
     * connection without a client node throws out of `bind` (`npe`).
     */
    method Bind(cc: ChannelContext?) returns (npe: bool)
      modifies this
      requires Valid()
      ensures Valid()
      ensures npe <==> cc != null && !cc.isShortConnection && cc.clientNode.None?
      ensures cc == null || !Registrable(cc) ==> ipmap == old(ipmap) && ipLocks == old(ipLocks)
      ensures cc != null && Registrable(cc) ==>
        ipmap == WithMember(old(ipmap), cc.clientNode.value.host, cc)
    {
      npe := false;
      if cc == null {
        return;
      }
      if cc.isShortConnection {
        return;
      }
      if cc.clientNode.None? {
        npe := true;
        return;
      }
      var ip := cc.clientNode.value.host;
      if ip == UnknownAddressIp {
        return;
      }
      if IsBlank(Some(ip)) {
        return;
      }
      if ip !in ipmap {
        ipLocks := ipLocks + {ip};
        ipmap := ipmap[ip := {}];
      }
      ipmap := ipmap[ip := ipmap[ip] + {cc}];
    }

    /** `clients`: nothing for short connections or a blank ip; else the ip's set, if any. */
    function Clients(isShortConnection: bool, ip: Option<string>): (r: Option<set<ChannelContext>>)
      reads this
      ensures r.Some? <==> !isShortConnection && !IsBlank(ip) && ip.value in ipmap
      ensures r.Some? ==> r.value == ipmap[ip.value] && (Valid() ==> r.value != {})
    {
      if isShortConnection || IsBlank(ip) then None
      else if ip.value in ipmap then Some(ipmap[ip.value])
      else None
    }

    /**
     * `unbind`: a no-op for a null context, a short connection, a missing
     * client node (the failure is swallowed), or a blank or unknown ip;
     * otherwise the connection leaves its ip's set, and an emptied ip loses
     * its set and its lock.
     */
    method Unbind(cc: ChannelContext?)
      modifies this
      requires Valid()
      ensures Valid()
      ensures cc == null || !Registrable(cc) ==> ipmap == old(ipmap) && ipLocks == old(ipLocks)
      ensures cc != null && Registrable(cc) ==>
        ipmap == WithoutMember(old(ipmap), cc.clientNode.value.host, cc)
    {
      if cc == null {
        return;
      }
      if cc.isShortConnection {
        return;
      }
      if cc.clientNode.None? {
        return;
      }
      var ip := cc.clientNode.value.host;
      if IsBlank(Some(ip)) {
        return;
      }
      if ip == UnknownAddressIp {
        return;
      }
      if ip in ipmap {
        var rest := ipmap[ip] - {cc};
        if rest == {} {
          ipmap := ipmap - {ip};
          ipLocks := ipLocks - {ip};
        } else {
          ipmap := ipmap[ip := rest];
        }
      }
    }
  }
}
