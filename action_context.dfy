/** The key/value bag passed between actions (actions/ActionContext.java). */
module ActionContexts {
  import opened Wrappers
  import opened Values

  type Bag = map<string, Value>

  // The keys through which the thinking engine and the actions share a tick's context.
  const TaskContentKey := "other_task_content"
  const WillRunKey := "will_run_screen_analysis"
  const ScreenshotKey := "screenshot"
  const BlockedKey := "DefaultChatBlockedBy"

  /** Map.get: the value stored under key, or null. */
  function Lookup(bag: Bag, key: string): (r: Option<Value>)
    ensures r.Some? <==> key in bag
    ensures r.Some? ==> r.value == bag[key]
  {
    if key in bag then Some(bag[key]) else None
  }

  /**
   * get(key, type): the value stored under key when it is an instance of the class that tag
   * names, and null when the key is absent or holds a value of another class.
   */
  function LookupTyped(bag: Bag, key: string, tag: Tag): (r: Option<Value>)
    ensures r.Some? <==> key in bag && bag[key].TagOf() == tag
    ensures r.Some? ==> r.value == bag[key]
  {
    if key in bag && bag[key].TagOf() == tag then Some(bag[key]) else None
  }

  /** The content of the StringBuilder stored under key, if there is one. */
  function BuilderAt(bag: Bag, key: string): (r: Option<string>)
    ensures r.Some? <==> key in bag && bag[key].Builder?
    ensures r.Some? ==> bag[key] == Builder(r.value)
  {
    match LookupTyped(bag, key, BuilderTag)
    case Some(Builder(s)) => Some(s)
    case _ => None
  }

  /** The Boolean stored under key, if there is one. */
  function FlagAt(bag: Bag, key: string): (r: Option<bool>)
    ensures r.Some? <==> key in bag && bag[key].Flag?
    ensures r.Some? ==> bag[key] == Flag(r.value)
  {
    match LookupTyped(bag, key, FlagTag)
    case Some(Flag(b)) => Some(b)
    case _ => None
  }

  /** The List<String> stored under key, if there is one. */
  function TextsAt(bag: Bag, key: string): (r: Option<seq<string>>)
    ensures r.Some? <==> key in bag && bag[key].Texts?
    ensures r.Some? ==> bag[key] == Texts(r.value)
  {
    match LookupTyped(bag, key, TextsTag)
    case Some(Texts(items)) => Some(items)
    case _ => None
  }

  /** The BufferedImage stored under key, if there is one. */
  function ImageAt(bag: Bag, key: string): (r: Option<Image>)
    ensures r.Some? <==> key in bag && bag[key].Screenshot?
    ensures r.Some? ==> bag[key] == Screenshot(r.value)
  {
    match LookupTyped(bag, key, ImageTag)
    case Some(Screenshot(img)) => Some(img)
    case _ => None
  }

  /** After put(k, v), get(k) is v and contains(k) holds; every other key keeps its value. */
  lemma PutThenGet(bag: Bag, k: string, v: Value, other: string)
    requires other != k
    ensures Lookup(bag[k := v], k) == Some(v)
    ensures Lookup(bag[k := v], other) == Lookup(bag, other)
  {
  }

  /** A typed get of a key that holds a value of another class gives null. */
  lemma TypedGetOfOtherClass(bag: Bag, k: string, v: Value, tag: Tag)
    requires v.TagOf() != tag
    ensures LookupTyped(bag[k := v], k, tag).None?
  {
  }

  class ActionContext {
    var data: Bag

    constructor ()
      ensures data == map[]
    {
      data := map[];
    }

    /** put(key, value): stores value under key, replacing any earlier value. */
    method Put(key: string, value: Value)
      modifies this
      ensures data == old(data)[key := value]
    {
      data := data[key := value];
    }

    /** get(key): what it returns is defined by Lookup; PutThenGet relates it to put. */
    function Get(key: string): (r: Option<Value>)
      reads this
      ensures r == Lookup(data, key)
    {
      Lookup(data, key)
    }

    /** get(key, type). */
    function GetTyped(key: string, tag: Tag): (r: Option<Value>)
      reads this
      ensures r.Some? ==> Contains(key)
    {
      LookupTyped(data, key, tag)
    }

    /** contains(key). */
    function Contains(key: string): (r: bool)
      reads this
      ensures r <==> Lookup(data, key).Some?
    {
      key in data
    }

    /** clear(): afterwards no key is contained. */
    method Clear()
      modifies this
      ensures data == map[]
      ensures forall k :: !Contains(k)
    {
      data := map[];
    }
  }
}
