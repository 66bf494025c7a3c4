/** The handlers of app/api/settings/route.ts. */
module SettingsRoute {
  import opened Types
  import opened Store
  import opened Http

  /** GET: the settings with the empty-URL default, or 500. */
  method Get(repo: Repository, now: int) returns (resp: Response)
    modifies repo, repo.remote
    ensures repo.Loaded(now, resp.status == 200)
    ensures resp.status == 200 ==> resp.payload == SettingsRecord(SettingsOrDefault(old(repo.Served(now)).settings))
    ensures resp.status != 200 ==> resp == Response(500, ErrorMessage("Failed to fetch settings"))
  {
    var r := repo.GetSettings(now);
    if r.Err? {
      return Response(500, ErrorMessage("Failed to fetch settings"));
    }
    resp := Response(200, SettingsRecord(r.value));
  }

  /** PUT: the whole body is the settings patch; `{ success: true }` once it is saved, 500 otherwise. */
  method Put(repo: Repository, body: Option<Settings>, readAt: int, saveAt: int) returns (resp: Response)
    modifies repo, repo.remote, repo.dataCache
    ensures body.None? ==> unchanged(repo, repo.remote) && (repo.dataCache != null ==> unchanged(repo.dataCache))
    ensures body.Some? ==>
      repo.ReadModifyWriteAnswered(readAt, saveAt, ApplySettingsPatch(old(repo.Served(readAt)), body.value), true, resp.status == 200)
    ensures !old(repo.CacheHit(readAt)) && old(repo.dataCache) != null ==> unchanged(old(repo.dataCache))
    ensures resp.status == 200 ==> resp.payload == Success
    ensures resp.status != 200 ==> resp == Response(500, ErrorMessage("Failed to update settings"))
  {
    if body.None? {
      return Response(500, ErrorMessage("Failed to update settings"));
    }
    var r := repo.UpdateSettings(body.value, readAt, saveAt);
    if r.Failed? {
      return Response(500, ErrorMessage("Failed to update settings"));
    }
    resp := Response(200, Success);
  }
}
