// The inference server's model cache (infer_server/src/model/model_manager.cpp):
// loaded models are kept in a map keyed by their origin and function name,
// reused on a later load, and evicted one at a time once the cache is full.
module ModelCache {
  import opened Common

  /** A loaded model as the runtime build keeps it: Init records the path
      (or the printed memory address) and the function name. */
  class Model {
    const path: string
    const funcName: string

    constructor (path: string, funcName: string)
      ensures this.path == path && this.funcName == funcName
    {
      this.path := path;
      this.funcName := funcName;
    }
  }

  /** BeginWith: `s` is at least as long as `prefix` and starts with it. */
  predicate BeginWith(s: string, prefix: string)
  {
    |s| >= |prefix| && s[..|prefix|] == prefix
  }

  /** IsNetFile: the URL names a file on the network. */
  predicate IsNetFile(url: string)
  {
    BeginWith(url, "http://") || BeginWith(url, "https://") || BeginWith(url, "ftp://")
  }

  /** A URL is a network file exactly when it is one of the three protocols
      followed by the rest of the address. */
  lemma IsNetFileIff(url: string)
    ensures IsNetFile(url) <==>
      exists p, rest :: p in ["http://", "https://", "ftp://"] && url == p + rest
  {
    if IsNetFile(url) {
      var p := if BeginWith(url, "http://") then "http://"
               else if BeginWith(url, "https://") then "https://" else "ftp://";
      assert url == p + url[|p|..];
    }
  }

  /** GetModelKey: the key a model is loaded under, path followed by the
      function name with nothing in between. */
  function LoadKey(path: string, funcName: string): (k: string)
    ensures |k| == |path| + |funcName|
    ensures k[..|path|] == path && k[|path|..] == funcName
  {
    path + funcName
  }

  /** Model::GetKey: the key Unload looks a model up under, path and
      function name joined by an underscore. */
  function ModelKey(m: Model): (k: string)
    ensures |k| == |m.path| + 1 + |m.funcName|
    ensures k[..|m.path|] == m.path && k[|m.path|] == '_' && k[|m.path| + 1..] == m.funcName
  {
    m.path + "_" + m.funcName
  }

  /** The two keys of one model never coincide (they differ in length). */
  lemma KeysDiffer(m: Model)
    ensures ModelKey(m) != LoadKey(m.path, m.funcName)
  {
  }

  /** The first key in iteration order whose model nobody else holds
      (use_count() == 1). */
  function FirstEvictable(order: seq<string>, cache: map<string, Model>, held: set<Model>): (k: Option<string>)
    requires forall i :: 0 <= i < |order| ==> order[i] in cache
    ensures k.Some? ==> k.value in order && cache[k.value] !in held
    ensures k.None? <==> forall i :: 0 <= i < |order| ==> cache[order[i]] in held
    ensures k.Some? ==> exists i :: 0 <= i < |order| && order[i] == k.value &&
                                    forall j :: 0 <= j < i ==> cache[order[j]] in held
  {
    if |order| == 0 then None
    else if cache[order[0]] !in held then Some(order[0])
    else
      var rest := FirstEvictable(order[1..], cache, held);
      if rest.Some? then
        assert forall j :: 1 <= j <= |order[1..]| ==> order[j] == order[1..][j - 1];
        rest
      else rest
  }

  class ModelManager {
    /** model_cache_. */
    var cache: map<string, Model>

    constructor ()
      ensures cache == map[]
    {
      cache := map[];
    }

    /** GetModel: the model cached under `name`, if any. */
    function GetModel(name: string): (m: Option<Model>)
      reads this
      ensures m.Some? <==> name in cache
      ensures m.Some? ==> m.value == cache[name]
    {
      if name in cache then Some(cache[name]) else None
    }

    /** CacheSize. */
    function CacheSize(): (n: nat)
      reads this
      ensures n == |cache.Keys|
    {
      |cache|
    }

    /** CheckAndCleanCache: once the cache holds `limit` models or more
        (CNIS_MODEL_CACHE_LIMIT, default 10), drop the first model, in the
        map's iteration order `order`, that nobody outside the cache holds;
        drop nothing otherwise. */
    method CheckAndCleanCache(limit: nat, order: seq<string>, held: set<Model>)
      requires forall k :: k in cache <==> k in order
      modifies this
      ensures |old(cache)| >= limit && FirstEvictable(order, old(cache), held).Some? ==>
        cache == old(cache) - {FirstEvictable(order, old(cache), held).value}
      ensures !(|old(cache)| >= limit && FirstEvictable(order, old(cache), held).Some?) ==>
        cache == old(cache)
    {
      if |cache| >= limit {
        var i := 0;
        while i < |order|
          invariant i <= |order| && cache == old(cache)
          invariant FirstEvictable(order, cache, held) == FirstEvictable(order[i..], cache, held)
        {
          if cache[order[i]] !in held {
            cache := cache - {order[i]};
            return;
          }
          assert order[i..][1..] == order[i + 1..];
          i := i + 1;
        }
      }
    }

    /** The part of Load shared by both origins: a hit returns the cached
        model untouched; a miss keeps the new model only if Init succeeds,
        after making room. */
    method LoadKeyed(key: string, path: string, funcName: string, initOk: bool,
                     limit: nat, order: seq<string>, held: set<Model>) returns (m: Option<Model>)
      requires forall k :: k in cache <==> k in order
      modifies this
      ensures key in old(cache) ==> m == Some(old(cache)[key]) && cache == old(cache)
      ensures key !in old(cache) && !initOk ==> m.None? && cache == old(cache)
      ensures key !in old(cache) && initOk ==>
        m.Some? && fresh(m.value) && m.value.path == path && m.value.funcName == funcName &&
        key in cache && cache[key] == m.value &&
        forall k :: k in cache && k != key ==> k in old(cache) && cache[k] == old(cache)[k]
      ensures key !in old(cache) && initOk ==> |old(cache)| - 1 <= |cache.Keys - {key}| <= |old(cache)|
    {
      if key !in cache {
        if !initOk {
          return None;
        }
        var model := new Model(path, funcName);
        CheckAndCleanCache(limit, order, held);
        cache := cache[key := model];
        return Some(model);
      }
      return Some(cache[key]);
    }

    /** Load from a file or URL: a network URL is downloaded first
        (`downloaded` is the local path, empty when the download fails), a
        local path must name an existing file. */
    method Load(url: string, funcName: string, downloaded: string, fileExists: bool, initOk: bool,
                limit: nat, order: seq<string>, held: set<Model>) returns (m: Option<Model>)
      requires forall k :: k in cache <==> k in order
      modifies this
      ensures IsNetFile(url) && downloaded == "" ==> m.None? && cache == old(cache)
      ensures !IsNetFile(url) && !fileExists ==> m.None? && cache == old(cache)
      ensures var path := if IsNetFile(url) then downloaded else url;
        (IsNetFile(url) ==> downloaded != "") && (!IsNetFile(url) ==> fileExists) ==>
          var key := LoadKey(path, funcName);
          (key in old(cache) ==> m == Some(old(cache)[key]) && cache == old(cache)) &&
          (key !in old(cache) && !initOk ==> m.None? && cache == old(cache)) &&
          (key !in old(cache) && initOk ==>
            m.Some? && m.value.path == path && m.value.funcName == funcName && key in cache && cache[key] == m.value &&
            forall k :: k in cache && k != key ==> k in old(cache) && cache[k] == old(cache)[k])
    {
      var path: string;
      if IsNetFile(url) {
        path := downloaded;
        if path == "" {
          return None;
        }
      } else {
        path := url;
        if !fileExists {
          return None;
        }
      }
      m := LoadKeyed(LoadKey(path, funcName), path, funcName, initOk, limit, order, held);
    }

    /** Load from memory: a null pointer fails; otherwise the key and the
        model's path are the printed address `addr`. */
    method LoadFromMemory(memPtr: Option<string>, funcName: string, initOk: bool,
                          limit: nat, order: seq<string>, held: set<Model>) returns (m: Option<Model>)
      requires forall k :: k in cache <==> k in order
      modifies this
      ensures memPtr.None? ==> m.None? && cache == old(cache)
      ensures memPtr.Some? ==>
        var key := LoadKey(memPtr.value, funcName);
        (key in old(cache) ==> m == Some(old(cache)[key]) && cache == old(cache)) &&
        (key !in old(cache) && !initOk ==> m.None? && cache == old(cache)) &&
        (key !in old(cache) && initOk ==>
          m.Some? && m.value.path == memPtr.value && key in cache && cache[key] == m.value &&
          forall k :: k in cache && k != key ==> k in old(cache) && cache[k] == old(cache)[k])
    {
      if memPtr.None? {
        return None;
      }
      m := LoadKeyed(LoadKey(memPtr.value, funcName), memPtr.value, funcName, initOk, limit, order, held);
    }

    /** Unload as written: looks the model up under Model::GetKey, which is
        not the key Load stored it under. */
    method UnloadAsWritten(model: Option<Model>) returns (ok: bool)
      modifies this
      ensures model.None? ==> !ok && cache == old(cache)
      ensures model.Some? ==> (ok <==> ModelKey(model.value) in old(cache))
      ensures model.Some? ==> cache == old(cache) - {ModelKey(model.value)}
    {
      if model.None? {
        return false;
      }
      var key := ModelKey(model.value);
      if key !in cache {
        return false;
      }
      cache := cache - {key};
      return true;
    }

    /** Unload: a null model fails; otherwise the model's load key is
        looked up and erased, and the result says whether it was there. */
    method Unload(model: Option<Model>) returns (ok: bool)
      modifies this
      ensures model.None? ==> !ok && cache == old(cache)
      ensures model.Some? ==> (ok <==> LoadKey(model.value.path, model.value.funcName) in old(cache))
      ensures model.Some? ==> cache == old(cache) - {LoadKey(model.value.path, model.value.funcName)}
    {
      if model.None? {
        return false;
      }
      var key := LoadKey(model.value.path, model.value.funcName);
      if key !in cache {
        return false;
      }
      cache := cache - {key};
      return true;
    }

    /** ClearCache: forget every model. */
    method ClearCache()
      modifies this
      ensures cache == map[]
    {
      cache := map[];
    }
  }

  /** A plain file name is not a network URL. */
  lemma LocalFileIsNotNet()
    ensures !IsNetFile("net.cambricon")
  {
    var url := "net.cambricon";
    assert url[..7][0] == 'n' && url[..8][0] == 'n' && url[..6][0] == 'n';
  }

  /** A fresh manager after loading "net.cambricon" with function
      "subnet0": the one model is cached under its load key. */
  method LoadOne() returns (manager: ModelManager, m: Option<Model>)
    ensures fresh(manager) && m.Some?
    ensures m.value.path == "net.cambricon" && m.value.funcName == "subnet0"
    ensures manager.cache.Keys == {LoadKey("net.cambricon", "subnet0")}
  {
    manager := new ModelManager();
    LocalFileIsNotNet();
    m := manager.Load("net.cambricon", "subnet0", "", true, true, 10, [], {});
  }

  /** A model loaded from a file cannot be unloaded as written (Unload
      reports false and the model stays cached), while the corrected Unload
      removes it. */
  method LoadThenUnload() returns (asWritten: bool, corrected: bool, leftAsWritten: nat, leftCorrected: nat)
    ensures !asWritten && leftAsWritten == 1
    ensures corrected && leftCorrected == 0
  {
    var manager, m := LoadOne();
    KeysDiffer(m.value);
    asWritten := manager.UnloadAsWritten(m);
    leftAsWritten := manager.CacheSize();
    corrected := manager.Unload(m);
    leftCorrected := manager.CacheSize();
  }
}
