/** The dismissible notice bar (components/NoticeBar.jsx): whether it shows,
    and the dismissal it keeps in the browser's key-value store, with an
    optional time to live. The store is a map and `Date.now()` a parameter. */
module Notice {
  import opened Values

  /** What the store holds under the key: an empty string, text that is not
      JSON, or a parsed entry whose `expires` may be missing. */
  datatype Entry = Blank | Unparsable | Parsed(expires: Option<int>)

  type Store = map<string, Entry>

  /** What the mount-time check does: nothing, hide the bar, or drop the entry. */
  datatype Effect = Stay | Hide | Drop

  /** The mount-time check. An empty key or a missing or blank entry changes
      nothing, and so does an unparsable one (the parse fails and the error is
      swallowed); a zero time to live hides the bar for any parsed entry; else
      the bar is hidden while a non-zero expiry lies ahead, and the entry is
      dropped once it has passed or when it has none. */
  function MountCheck(key: string, ttl: int, store: Store, now: int): Effect
  {
    if key == "" || key !in store then Stay
    else match store[key]
      case Blank => Stay
      case Unparsable => Stay
      case Parsed(expires) =>
        if ttl == 0 then Hide
        else if expires.Some? && expires.value != 0 && now < expires.value then Hide
        else Drop
  }

  /** The entry `handleClose` writes. */
  function Written(ttl: int, now: int): (e: Entry)
    ensures ttl > 0 ==> e == Parsed(Some(now + ttl))
    ensures ttl <= 0 ==> e == Parsed(None)
  {
    Parsed(if ttl > 0 then Some(now + ttl) else None)
  }

  /** The store after `handleClose`: nothing is written without a key. */
  function CloseStore(key: string, ttl: int, store: Store, now: int): (s: Store)
    ensures key == "" ==> s == store
    ensures key != "" ==> s == store[key := Written(ttl, now)]
  {
    if key == "" then store else store[key := Written(ttl, now)]
  }

  /** The store after the mount-time check. */
  function MountStore(key: string, ttl: int, store: Store, now: int): (s: Store)
  {
    if MountCheck(key, ttl, store, now) == Drop then map k | k in store && k != key :: store[k] else store
  }

  /** The cases of the mount-time check. */
  lemma MountCases(key: string, ttl: int, store: Store, now: int)
    ensures key == "" ==> MountCheck(key, ttl, store, now) == Stay
    ensures key !in store ==> MountCheck(key, ttl, store, now) == Stay
    ensures key in store && store[key] in {Blank, Unparsable} ==> MountCheck(key, ttl, store, now) == Stay
    ensures key != "" && key in store && store[key].Parsed? && ttl == 0 ==> MountCheck(key, ttl, store, now) == Hide
    ensures key != "" && key in store && ttl != 0 && store[key].Parsed? ==>
      (MountCheck(key, ttl, store, now) == Hide <==>
        store[key].expires.Some? && store[key].expires.value != 0 && now < store[key].expires.value)
    ensures MountCheck(key, ttl, store, now) == Drop ==>
      key !in MountStore(key, ttl, store, now)
      && forall k :: k != key ==> (k in MountStore(key, ttl, store, now) <==> k in store)
    ensures MountCheck(key, ttl, store, now) != Drop ==> MountStore(key, ttl, store, now) == store
  {
  }

  /** Closing with a positive time to live at time t, then mounting again at
      t2: hidden before t + ttl; after it, shown again with the entry dropped. */
  lemma CloseThenRemount(key: string, ttl: int, store: Store, t: nat, t2: int)
    requires key != "" && ttl > 0
    ensures var s := CloseStore(key, ttl, store, t);
      && (t2 < t + ttl ==> MountCheck(key, ttl, s, t2) == Hide)
      && (t2 >= t + ttl ==> MountCheck(key, ttl, s, t2) == Drop && key !in MountStore(key, ttl, s, t2))
  {
  }

  /** A zero time to live dismisses for good; a negative one does not
      persist: the next mount drops the entry and shows the bar. */
  lemma CloseWithoutExpiry(key: string, ttl: int, store: Store, t: int, t2: int)
    requires key != "" && ttl <= 0
    ensures var s := CloseStore(key, 0, store, t); MountCheck(key, 0, s, t2) == Hide
    ensures var s := CloseStore(key, ttl, store, t); ttl < 0 ==> MountCheck(key, ttl, s, t2) == Drop
  {
  }

  /** Without a key nothing is stored, so the next mount shows the bar. */
  lemma NoKeyNeverPersists(ttl: int, store: Store, t: int, t2: int)
    ensures CloseStore("", ttl, store, t) == store
    ensures MountCheck("", ttl, CloseStore("", ttl, store, t), t2) == Stay
  {
  }

  /** The props' defaults: the key the bar uses when none is given, and a
      dismissal that lasts one second. */
  const DEFAULT_KEY: string := "dashboard-notice"
  const DEFAULT_TTL: int := 1000

  /** A bar with the default props, closed at t, is hidden on a mount before
      t + 1000 and shown again, with the entry dropped, from then on. */
  lemma DefaultBarOneSecond(store: Store, t: nat, t2: int)
    ensures var s := CloseStore(DEFAULT_KEY, DEFAULT_TTL, store, t);
      && s[DEFAULT_KEY] == Parsed(Some(t + 1000))
      && (t2 < t + 1000 ==> MountCheck(DEFAULT_KEY, DEFAULT_TTL, s, t2) == Hide)
      && (t2 >= t + 1000 ==>
            MountCheck(DEFAULT_KEY, DEFAULT_TTL, s, t2) == Drop && DEFAULT_KEY !in MountStore(DEFAULT_KEY, DEFAULT_TTL, s, t2))
  {
    CloseThenRemount(DEFAULT_KEY, DEFAULT_TTL, store, t, t2);
  }

  /** One notice bar; `store` is the browser's store as the bar sees it. */
  class NoticeBar {
    const key: string
    const ttl: int
    var open: bool
    var store: Store

    /** The bar starts open. */
    constructor (key: string, ttl: int, store: Store)
      ensures this.key == key && this.ttl == ttl && this.store == store && open
    {
      this.key := key;
      this.ttl := ttl;
      this.store := store;
      open := true;
    }

    /** A bar rendered without `storageKey` or `ttlMs`. */
    constructor Default(store: Store)
      ensures key == DEFAULT_KEY && ttl == DEFAULT_TTL && this.store == store && open
    {
      key := DEFAULT_KEY;
      ttl := DEFAULT_TTL;
      this.store := store;
      open := true;
    }

    /** The mount effect: it may hide the bar or drop the entry, never reopen. */
    method MountEffect(now: int)
      modifies this`open, this`store
      ensures open == (old(open) && MountCheck(key, ttl, old(store), now) != Hide)
      ensures store == MountStore(key, ttl, old(store), now)
    {
      var effect := MountCheck(key, ttl, store, now);
      if effect == Hide {
        open := false;
      } else if effect == Drop {
        store := map k | k in store && k != key :: store[k];
      }
    }

    /** `handleClose`: hides the bar and records the dismissal under the key. */
    method HandleClose(now: int)
      modifies this`open, this`store
      ensures !open
      ensures store == CloseStore(key, ttl, old(store), now)
    {
      open := false;
      if key != "" {
        store := store[key := Written(ttl, now)];
      }
    }
  }

  /** A bar closed at time t and a new bar mounted on the same store at t2
      is hidden exactly while the dismissal has not expired. */
  method RemountAfterClose(key: string, ttl: int, store: Store, t: nat, t2: int) returns (shown: bool)
    requires key != "" && ttl > 0
    ensures shown <==> t2 >= t + ttl
  {
    var first := new NoticeBar(key, ttl, store);
    first.MountEffect(t);
    first.HandleClose(t);
    var second := new NoticeBar(key, ttl, first.store);
    second.MountEffect(t2);
    CloseThenRemount(key, ttl, first.store, t, t2);
    shown := second.open;
  }

  /** The same for bars with the default props, as most screens render them:
      a second bar mounted at t2 shows exactly from one second after the close. */
  method DefaultRemountAfterClose(store: Store, t: nat, t2: int) returns (shown: bool)
    ensures shown <==> t2 >= t + 1000
  {
    var first := new NoticeBar.Default(store);
    first.MountEffect(t);
    first.HandleClose(t);
    var second := new NoticeBar.Default(first.store);
    second.MountEffect(t2);
    CloseThenRemount(DEFAULT_KEY, DEFAULT_TTL, first.store, t, t2);
    shown := second.open;
  }
}
