/**
 * The token bookkeeping object: two nullable tables, created lazily on
 * first use and updated in place by `activity` and `activity_reset`. The
 * pseudo-random generator becomes a parameter: each method that may create
 * a table takes the eight `nextInt(65535)` values `new_id` would draw.
 */
module TokenImpl {
  import opened IdFormat
  import opened TokenSpec

  /** The keys the source's table map reserves for the id and the counter. */
  predicate IsReserved(name: string) {
    name == ":id" || name == ":sg"
  }

  class Token {
    var pageview: Option<Table>
    var session: Option<Table>

    ghost predicate Valid()
      reads this
    {
      && (pageview.Some? ==> TableValid(pageview.value))
      && (session.Some? ==> TableValid(session.value))
    }

    constructor ()
      ensures pageview == None && session == None && Valid()
    {
      pageview, session := None, None;
    }

    /** `pageview_check`: create the pageview table if it is still null. */
    method PageviewCheck(draw: seq<nat>)
      requires Valid() && IsDraw(draw)
      modifies this
      ensures Valid()
      ensures pageview == Some(Current(old(pageview), draw)) && session == old(session)
    {
      if pageview.None? {
        pageview := Some(NewTable(draw));
      }
    }

    /** `session_check`: create the session table if it is still null. */
    method SessionCheck(draw: seq<nat>)
      requires Valid() && IsDraw(draw)
      modifies this
      ensures Valid()
      ensures session == Some(Current(old(session), draw)) && pageview == old(pageview)
    {
      if session.None? {
        session := Some(NewTable(draw));
      }
    }

    /** `session()`: the session id; the same one on every call once created. */
    method Session(draw: seq<nat>) returns (id: string)
      requires Valid() && IsDraw(draw)
      modifies this
      ensures Valid()
      ensures session == Some(Current(old(session), draw)) && pageview == old(pageview)
      ensures id == session.value.id && IsTokenId(id)
      ensures old(session).Some? ==> id == old(session).value.id
    {
      SessionCheck(draw);
      id := session.value.id;
    }

    /** `pageview()`: the pageview id; the same one on every call once created. */
    method Pageview(draw: seq<nat>) returns (id: string)
      requires Valid() && IsDraw(draw)
      modifies this
      ensures Valid()
      ensures pageview == Some(Current(old(pageview), draw)) && session == old(session)
      ensures id == pageview.value.id && IsTokenId(id)
      ensures old(pageview).Some? ==> id == old(pageview).value.id
    {
      PageviewCheck(draw);
      id := pageview.value.id;
    }

    /**
     * `activity(name, scopename)`: the scope id followed by the name's
     * sequence number in `%04x`, numbering a new name first; `None` (the
     * source's null) for an unknown scope, which touches nothing.
     */
    method Activity(name: string, scope: string, draw: seq<nat>) returns (r: Option<string>)
      requires Valid() && IsDraw(draw) && !IsReserved(name)
      modifies this
      ensures Valid()
      ensures scope == "session" ==>
                && pageview == old(pageview)
                && session == Some(Activate(Current(old(session), draw), name))
                && r == Some(ActivityOf(session.value, name))
      ensures scope == "pageview" ==>
                && session == old(session)
                && pageview == Some(Activate(Current(old(pageview), draw), name))
                && r == Some(ActivityOf(pageview.value, name))
      ensures scope != "session" && scope != "pageview" ==>
                r == None && session == old(session) && pageview == old(pageview)
    {
      if scope == "session" {
        var id := Session(draw);
        session := Some(Activate(session.value, name));
        var sn := session.value.names[name];
        return Some(ActivityId(id, sn));
      }
      if scope == "pageview" {
        var id := Pageview(draw);
        pageview := Some(Activate(pageview.value, name));
        var sn := pageview.value.names[name];
        return Some(ActivityId(id, sn));
      }
      return None;
    }

    /**
     * `activity_reset(name)`: forget `name` in the pageview table if it is
     * there, otherwise in the session table. Either table may be created on
     * the way, the pageview table from `pvDraw` and the session table from
     * `sessionDraw`.
     */
    method ActivityReset(name: string, pvDraw: seq<nat>, sessionDraw: seq<nat>)
      requires Valid() && IsDraw(pvDraw) && IsDraw(sessionDraw) && !IsReserved(name)
      modifies this
      ensures Valid()
      ensures name in Current(old(pageview), pvDraw).names ==>
                && pageview == Some(Reset(Current(old(pageview), pvDraw), name))
                && session == old(session)
      ensures name !in Current(old(pageview), pvDraw).names ==>
                && pageview == Some(Current(old(pageview), pvDraw))
                && session == Some(Reset(Current(old(session), sessionDraw), name))
    {
      PageviewCheck(pvDraw);
      var pv := pageview.value;
      if name in pv.names {
        pageview := Some(Reset(pv, name));
      } else {
        SessionCheck(sessionDraw);
        var st := session.value;
        if name in st.names {
          session := Some(Reset(st, name));
        }
      }
    }
  }
}
