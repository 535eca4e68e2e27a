/**
 * `AuthTypeEnum`: the five login kinds, each with a code and a description,
 * and `fromCode`, a scan of the constants in declaration order.
 */
module AuthType {
  import opened Common

  datatype AuthTypeEnum = UsernamePassword | SmsCode | Wechat | Github | Google
  {
    function Code(): string
    {
      match this
      case UsernamePassword => "username_password"
      case SmsCode => "sms_code"
      case Wechat => "wechat"
      case Github => "github"
      case Google => "google"
    }

    /** The constant's position in `Values`. */
    function Ordinal(): (n: nat)
      ensures n < |Values| && Values[n] == this
    {
      match this
      case UsernamePassword => 0
      case SmsCode => 1
      case Wechat => 2
      case Github => 3
      case Google => 4
    }

    function Description(): string
    {
      match this
      case UsernamePassword => "用户名密码登录"
      case SmsCode => "手机验证码登录"
      case Wechat => "微信登录"
      case Github => "GitHub登录"
      case Google => "Google登录"
    }
  }

  /** `AuthTypeEnum.values()`, in declaration order. */
  const Values: seq<AuthTypeEnum> := [UsernamePassword, SmsCode, Wechat, Github, Google]

  /** The first constant of `types` whose code equals `code`, if any. */
  function FirstWithCode(types: seq<AuthTypeEnum>, code: string): (r: Option<AuthTypeEnum>)
    ensures r.None? <==> forall i :: 0 <= i < |types| ==> types[i].Code() != code
    ensures r.Some? ==> exists i :: 0 <= i < |types| && types[i] == r.value && r.value.Code() == code
                                    && forall j :: 0 <= j < i ==> types[j].Code() != code
  {
    if types == [] then None
    else if types[0].Code() == code then Some(types[0])
    else
      var r := FirstWithCode(types[1..], code);
      assert forall i :: 1 <= i < |types| ==> types[i] == types[1..][i - 1];
      r
  }

  /** `AuthTypeEnum.fromCode(code)`: the constant with that code, or IllegalArgumentException. */
  function FromCode(code: Option<string>): (r: Outcome<AuthTypeEnum>)
    ensures r.Ok? <==> code.Some? && exists t: AuthTypeEnum :: t.Code() == code.value
    ensures r.Ok? ==> r.value.Code() == code.value
    ensures r.Thrown? ==> r.fault.IllegalArgument?
  {
    match code
    case None => Thrown(IllegalArgument("未知的认证类型: null"))
    case Some(c) =>
      match FirstWithCode(Values, c)
      case Some(t) => Ok(t)
      case None =>
        forall t: AuthTypeEnum ensures t.Code() != c {
          assert Values[t.Ordinal()] == t;
        }
        Thrown(IllegalArgument("未知的认证类型: " + c))
  }

  /** No two constants share a code. */
  lemma CodesAreDistinct(s: AuthTypeEnum, t: AuthTypeEnum)
    ensures s.Code() == t.Code() ==> s == t
  {
  }

  /** Looking up a constant's own code gives back that constant. */
  lemma FromCodeOfCode(t: AuthTypeEnum)
    ensures FromCode(Some(t.Code())) == Ok(t)
  {
    var r := FromCode(Some(t.Code()));
    CodesAreDistinct(r.value, t);
  }
}
