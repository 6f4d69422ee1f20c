/**
 * The whitelist of requi.py: a map from a name to the instant until which
 * that name is skipped. Entries are added by adicionar_whitelist
 * (requi.py:54-55) and expire lazily when the roster loop finds them stale
 * (requi.py:200-207). These are the value-level meanings; class
 * Monitor.Monitor holds the map and updates it in place.
 */
module Suppression {
  import Config

  type Whitelist = map<string, int>

  /** adicionar_whitelist: `name` is skipped until `now` plus the window; nothing else changes. */
  function Suppress(wl: Whitelist, name: string, now: int): (r: Whitelist)
    ensures name in r && r[name] == now + Config.Window
    ensures r - {name} == wl - {name}
    ensures r.Keys == wl.Keys + {name}
  {
    wl[name := now + Config.Window]
  }

  /**
   * The loop's whitelist test: whether `name` is still skipped at `now`,
   * and the map after an expired entry has been deleted.
   */
  function Screen(wl: Whitelist, name: string, now: int): (r: (Whitelist, bool))
    ensures r.1 <==> name in wl && now < wl[name]
    ensures r.1 ==> r.0 == wl
    ensures !r.1 ==> r.0 == wl - {name} && name !in r.0
  {
    if name in wl then
      if now < wl[name] then (wl, true) else (wl - {name}, false)
    else
      (wl, false)
  }

  /**
   * A name just whitelisted at `t` is skipped exactly while the clock is
   * before `t` plus the window, whatever the map held before.
   */
  lemma SuppressThenScreen(wl: Whitelist, name: string, t: int, now: int)
    ensures Screen(Suppress(wl, name, t), name, now).1 <==> now < t + Config.Window
    ensures now >= t + Config.Window ==> name !in Screen(Suppress(wl, name, t), name, now).0
  {
  }
}
