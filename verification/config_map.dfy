/**
 * The step both settings builders share: the merged context must be a map,
 * and a merge that found nothing (nil) counts as the empty map.
 */
module ConfigMap {
  import opened Base
  import opened Values
  import opened ContextParser

  datatype ConfigMapError = BuildFailed(cause: BuildError) | NotAnObject

  /** The merged settings as a map: nil becomes the empty map, anything but an object is refused. */
  function AsConfigMap(built: Result<Value, BuildError>): (r: Result<map<string, Value>, ConfigMapError>)
    ensures built.Err? ==> r == Err(BuildFailed(built.error))
    ensures r == Err(NotAnObject) <==> built.Ok? && !IsMapOrNil(built.value)
    ensures r.Ok? ==> built == Ok(Obj(r.value)) || (built == Ok(Null) && r.value == map[])
  {
    match built
    case Err(e) => Err(BuildFailed(e))
    case Ok(Null) => Ok(map[])
    case Ok(Obj(m)) => Ok(m)
    case Ok(_) => Err(NotAnObject)
  }
}
