/**
 * The persisted model choice (src/stores/modelStore.ts): a store with one
 * field, `selectedModel`, that starts as "local-llama" and is saved to
 * `localStorage` under "model-storage" on every change.
 *
 * The saved text is the JSON the persistence layer writes,
 * `{"state":{"selectedModel":"…"},"version":0}`; `Decode` is the read-back
 * used when a store is created over existing storage.
 */
module ModelStore {
  import opened Common
  import opened WebStorage

  const DefaultModelFallback: string := "local-llama"
  const StorageName: string := "model-storage"

  const StatePrefix: string := "{\"state\":{\"selectedModel\":\""
  const StateSuffix: string := "\"},\"version\":0}"

  // ---------------------------------------------------------------------------
  // JSON string bodies: quotes and backslashes are escaped with a backslash.
  // `JSON.stringify` also escapes control characters (`\n`, `\u00XX`); those
  // are kept as they are here, which the round trip does not notice.

  function Escape(s: string): (e: string)
    ensures |e| >= |s|
  {
    if |s| == 0 then ""
    else if s[0] == '"' || s[0] == '\\' then ['\\', s[0]] + Escape(s[1..])
    else [s[0]] + Escape(s[1..])
  }

  /** The text between the quotes of a JSON string back to the string; None at a bare quote or a bad escape. */
  function Unescape(e: string): (s: Option<string>)
    decreases |e|
  {
    if |e| == 0 then Some("")
    else if e[0] == '\\' then
      if |e| >= 2 && (e[1] == '"' || e[1] == '\\') then
        match Unescape(e[2..])
        case Some(rest) => Some([e[1]] + rest)
        case None => None
      else None
    else if e[0] == '"' then None
    else
      match Unescape(e[1..])
      case Some(rest) => Some([e[0]] + rest)
      case None => None
  }

  lemma {:induction false} UnescapeEscape(s: string)
    ensures Unescape(Escape(s)) == Some(s)
    decreases |s|
  {
    if |s| > 0 {
      UnescapeEscape(s[1..]);
      var e := Escape(s);
      if s[0] == '"' || s[0] == '\\' {
        assert e[2..] == Escape(s[1..]);
      } else {
        assert e[0] == s[0] && e[1..] == Escape(s[1..]);
      }
      assert s == [s[0]] + s[1..];
    }
  }

  /** Unescaping accepts only what Escape writes: the text read back escapes to the same text. */
  lemma {:induction false} EscapeUnescape(e: string)
    requires Unescape(e).Some?
    ensures Escape(Unescape(e).value) == e
    decreases |e|
  {
    if |e| > 0 {
      var s := Unescape(e).value;
      if e[0] == '\\' {
        EscapeUnescape(e[2..]);
        assert s == [e[1]] + Unescape(e[2..]).value;
        assert s[1..] == Unescape(e[2..]).value;
        assert e == [e[0], e[1]] + e[2..];
      } else {
        EscapeUnescape(e[1..]);
        assert s == [e[0]] + Unescape(e[1..]).value;
        assert s[1..] == Unescape(e[1..]).value;
        assert e == [e[0]] + e[1..];
      }
    }
  }

  /** The saved form of a selection: the persisted JSON with the escaped selection in place. */
  function Encode(model: string): (text: string)
    ensures |text| >= |StatePrefix| + |StateSuffix|
    ensures text[..|StatePrefix|] == StatePrefix && text[|text| - |StateSuffix|..] == StateSuffix
  {
    StatePrefix + Escape(model) + StateSuffix
  }

  /**
   * The selection read back from saved text; None unless it has the saved
   * shape. Only the text Encode writes reads back.
   */
  function Decode(text: string): (r: Option<string>)
    ensures r.Some? ==> Encode(r.value) == text
  {
    if |text| >= |StatePrefix| + |StateSuffix|
       && text[..|StatePrefix|] == StatePrefix
       && text[|text| - |StateSuffix|..] == StateSuffix
    then
      var middle := text[|StatePrefix|..|text| - |StateSuffix|];
      if Unescape(middle).Some? then
        EscapeUnescape(middle);
        assert text == StatePrefix + middle + StateSuffix;
        Unescape(middle)
      else None
    else None
  }

  /** Whatever selection is saved reads back unchanged. */
  lemma DecodeEncode(model: string)
    ensures Decode(Encode(model)) == Some(model)
  {
    var text := Encode(model);
    var e := Escape(model);
    assert text[..|StatePrefix|] == StatePrefix;
    assert text[|text| - |StateSuffix|..] == StateSuffix;
    assert text[|StatePrefix|..|text| - |StateSuffix|] == e;
    UnescapeEscape(model);
  }

  /** The selection a store created over `items` starts with. */
  function Rehydrated(items: map<string, string>): (r: string)
    ensures r == DefaultModelFallback || (StorageName in items && Encode(r) == items[StorageName])
    ensures StorageName in items && Decode(items[StorageName]).Some? ==> Encode(r) == items[StorageName]
  {
    if StorageName in items && Decode(items[StorageName]).Some? then Decode(items[StorageName]).value
    else DefaultModelFallback
  }

  class Models {
    var selectedModel: string
    const store: Store

    /** `create(persist(...))`: the saved selection if there is a readable one, else "local-llama". */
    constructor(store: Store)
      ensures selectedModel == Rehydrated(store.items)
      ensures StorageName !in store.items ==> selectedModel == DefaultModelFallback
      ensures this.store == store
    {
      var saved := store.GetItem(StorageName);
      selectedModel := if saved.Some? && Decode(saved.value).Some? then Decode(saved.value).value
                       else DefaultModelFallback;
      this.store := store;
    }

    /** `setSelectedModel(model)`: the state becomes exactly `model` and is saved. */
    method SetSelectedModel(model: string)
      modifies this, store
      ensures selectedModel == model
      ensures store.items == old(store.items)[StorageName := Encode(model)]
    {
      selectedModel := model;
      store.SetItem(StorageName, Encode(model));
    }
  }

  /** Setting the same selection twice leaves the same state and storage as setting it once. */
  method SetTwice(m: Models, model: string)
    modifies m, m.store
    ensures m.selectedModel == model
    ensures m.store.items == old(m.store.items)[StorageName := Encode(model)]
  {
    m.SetSelectedModel(model);
    m.SetSelectedModel(model);
  }

  /** A selection survives a reload: a store created after `setSelectedModel(model)` starts with it. */
  method ReloadKeepsSelection(store: Store, model: string) returns (reloaded: Models)
    modifies store
    ensures reloaded.selectedModel == model
  {
    var m := new Models(store);
    m.SetSelectedModel(model);
    DecodeEncode(model);
    reloaded := new Models(store);
  }
}
