/**
 * The model picker (src/components/ModelSelector.tsx): it fetches the model
 * table, adopts the backend's default while the selection is still the
 * built-in fallback, and renders one option per model id. One run of its
 * effect is `FetchSettled`; the effect re-runs whenever the selection changes.
 */
module ModelSelector {
  import opened Common
  import opened WebStorage
  import opened ModelStore

  /** `/models`: the table as (id, description) pairs and the backend's default id. */
  datatype ModelsResponse = ModelsResponse(models: seq<(string, string)>, default: string)

  datatype View = LoadingModels | Nothing | Options(ids: seq<string>)

  /** The selection after the sync rule: only the untouched fallback is replaced, and only by a different default. */
  function Synced(selected: string, default: string): (r: string)
    ensures selected != DefaultModelFallback ==> r == selected
    ensures selected == DefaultModelFallback ==> r == default
  {
    if selected == DefaultModelFallback && default != selected then default else selected
  }

  /**
   * The rule settles after one application: once it has run, later fetches,
   * whatever default they report, leave the selection alone unless it is
   * still the fallback.
   */
  lemma SyncSettles(selected: string, d1: string, d2: string)
    requires Synced(selected, d1) != DefaultModelFallback
    ensures Synced(Synced(selected, d1), d2) == Synced(selected, d1)
  {
  }

  function Ids(models: seq<(string, string)>): (ids: seq<string>)
    ensures |ids| == |models|
    ensures forall i :: 0 <= i < |models| ==> ids[i] == models[i].0
  {
    if |models| == 0 then [] else [models[0].0] + Ids(models[1..])
  }

  /** What renders: the loading text, nothing after a failed fetch, else one option per id in table order. */
  function Render(loading: bool, models: Option<ModelsResponse>): (v: View)
    ensures loading ==> v == LoadingModels
    ensures !loading && models.None? ==> v == Nothing
    ensures !loading && models.Some? ==> v.Options? && |v.ids| == |models.value.models|
    ensures v.Options? ==> forall i :: 0 <= i < |v.ids| ==> v.ids[i] == models.value.models[i].0
  {
    if loading then LoadingModels
    else if models.None? then Nothing
    else Options(Ids(models.value.models))
  }

  class Selector {
    var models: Option<ModelsResponse>
    var loading: bool
    const picked: Models

    constructor(picked: Models)
      ensures models == None && loading && this.picked == picked
    {
      models, loading := None, true;
      this.picked := picked;
    }

    /**
     * The effect's fetch settles: success shows the table and applies the sync
     * rule (saving only if the selection changed); failure keeps everything
     * but the loading flag.
     */
    method FetchSettled(fetch: Result<ModelsResponse, Thrown>)
      modifies this, picked, picked.store
      ensures !loading
      ensures fetch.Ok? ==> models == Some(fetch.value)
      ensures fetch.Ok? ==> picked.selectedModel == Synced(old(picked.selectedModel), fetch.value.default)
      ensures fetch.Ok? && picked.selectedModel != old(picked.selectedModel) ==>
        picked.store.items == old(picked.store.items)[StorageName := Encode(picked.selectedModel)]
      ensures fetch.Ok? && picked.selectedModel == old(picked.selectedModel) ==>
        picked.store.items == old(picked.store.items)
      ensures fetch.Err? ==>
        && models == old(models) && picked.selectedModel == old(picked.selectedModel)
        && picked.store.items == old(picked.store.items)
    {
      if fetch.Ok? {
        models := Some(fetch.value);
        if picked.selectedModel == DefaultModelFallback && fetch.value.default != picked.selectedModel {
          picked.SetSelectedModel(fetch.value.default);
        }
      }
      loading := false;
    }
  }

  /**
   * On a fresh install the picker adopts the backend's default, and the
   * re-run the change triggers leaves it there whatever that fetch reports.
   */
  method FirstLoad(store: Store, first: ModelsResponse, second: Result<ModelsResponse, Thrown>)
    returns (selected: string)
    requires StorageName !in store.items
    modifies store
    ensures selected == first.default
  {
    var picked := new Models(store);
    var selector := new Selector(picked);
    selector.FetchSettled(Ok(first));
    if picked.selectedModel != DefaultModelFallback {
      selector.FetchSettled(second);
    }
    selected := picked.selectedModel;
  }
}
