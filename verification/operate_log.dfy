/**
 * `OperateLogAspect`: which controller methods are logged (by name prefix)
 * and the operation label a method name maps to.
 */
module OperateLog {
  import opened Common

  /** `LOG_METHODS_PREFIX`, in its declared order. */
  const LogMethodPrefixes: seq<string> := ["add", "delete", "update", "query", "export", "import"]

  /** The label of a method that matches no prefix. */
  const OtherLabel: string := "其他"

  /** `needLog(methodName)`: some prefix of the list starts the name. */
  function NeedLog(methodName: string): (r: bool)
    ensures r <==> exists p :: p in LogMethodPrefixes && StartsWith(methodName, p)
  {
    AnyPrefixMatches(LogMethodPrefixes, methodName)
  }

  /** `prefixes.stream().anyMatch(name::startsWith)` */
  function AnyPrefixMatches(prefixes: seq<string>, name: string): (r: bool)
    ensures r <==> exists i :: 0 <= i < |prefixes| && StartsWith(name, prefixes[i])
  {
    if prefixes == [] then false
    else
      assert forall i :: 1 <= i < |prefixes| ==> prefixes[i] == prefixes[1..][i - 1];
      StartsWith(name, prefixes[0]) || AnyPrefixMatches(prefixes[1..], name)
  }

  /** The label of each prefix, in the order `getOperateTypeByMethodName` tests them. */
  function LabelOf(prefix: string): string
  {
    match prefix
    case "add" => "新增"
    case "delete" => "删除"
    case "update" => "修改"
    case "query" => "查询"
    case "export" => "导出"
    case "import" => "导入"
    case _ => OtherLabel
  }

  /**
   * `getOperateTypeByMethodName(methodName)`: the label of the FIRST prefix
   * (in list order) that starts the name, or "其他" when none does.
   */
  function OperateTypeOf(methodName: string): (r: string)
    ensures r == OtherLabel <==> forall i :: 0 <= i < |LogMethodPrefixes| ==> !StartsWith(methodName, LogMethodPrefixes[i])
    ensures forall i :: 0 <= i < |LogMethodPrefixes| && StartsWith(methodName, LogMethodPrefixes[i])
                        && (forall j :: 0 <= j < i ==> !StartsWith(methodName, LogMethodPrefixes[j]))
                        ==> r == LabelOf(LogMethodPrefixes[i])
  {
    assert LogMethodPrefixes[0] == "add" && LogMethodPrefixes[1] == "delete" && LogMethodPrefixes[2] == "update";
    assert LogMethodPrefixes[3] == "query" && LogMethodPrefixes[4] == "export" && LogMethodPrefixes[5] == "import";
    if StartsWith(methodName, "add") then "新增"
    else if StartsWith(methodName, "delete") then "删除"
    else if StartsWith(methodName, "update") then "修改"
    else if StartsWith(methodName, "query") then "查询"
    else if StartsWith(methodName, "export") then "导出"
    else if StartsWith(methodName, "import") then "导入"
    else OtherLabel
  }

  /** A method is logged exactly when it gets a label other than "其他": both use the same six prefixes. */
  lemma NeedLogIffLabelled(methodName: string)
    ensures NeedLog(methodName) <==> OperateTypeOf(methodName) != OtherLabel
  {
    if NeedLog(methodName) {
      var p :| p in LogMethodPrefixes && StartsWith(methodName, p);
      var i :| 0 <= i < |LogMethodPrefixes| && LogMethodPrefixes[i] == p;
      assert !(forall k :: 0 <= k < |LogMethodPrefixes| ==> !StartsWith(methodName, LogMethodPrefixes[k]));
    } else {
      assert forall k :: 0 <= k < |LogMethodPrefixes| ==> LogMethodPrefixes[k] in LogMethodPrefixes;
    }
  }

  /** What `logOperate` does after a controller method returns. */
  datatype LogDecision = Skipped | Recorded(operateType: string)

  /**
   * `logOperate(joinPoint)`: returns at once for a method `needLog` rejects;
   * otherwise it reaches the (still empty) recording section. Neither branch
   * writes a log record yet, so `Recorded` carries only the label a record
   * would get.
   */
  function LogOperate(methodName: string): (d: LogDecision)
    ensures d.Skipped? <==> !NeedLog(methodName)
    ensures d.Recorded? ==> d.operateType != OtherLabel
  {
    if !NeedLog(methodName) then Skipped
    else
      NeedLogIffLabelled(methodName);
      Recorded(OperateTypeOf(methodName))
  }
}
