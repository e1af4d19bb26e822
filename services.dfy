/** The service call that posts to the completion endpoint. */
module Services {
  import opened Wrappers
  import opened Request

  /** The options the `debug` service passes to the executor. */
  function DebugOptions<D>(data: D): (r: Config<D>)
    ensures r.url == Some("app/completion") && r.verb == Some("post") && r.data == Some(data)
    ensures r.headers == map[] && r.params == map[]
  {
    Config(Some("post"), Some("app/completion"), Some(data), map[], map[])
  }

  /** The transport is handed the absolute completion URL and the caller's data. */
  lemma DebugTarget<D>(data: D)
    ensures InterceptRequest(DebugOptions(data)).url == Some("http://localhost:5174/api/app/completion")
    ensures InterceptRequest(DebugOptions(data)).data == Some(data)
  {
    NormalizeCompletion();
  }
}
