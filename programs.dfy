/** Binary specifications (include/para/process/programs.hpp): where a
    program's path, argv and environment pointers are kept, and which tags
    select how it is executed. Pointers are `Option`s: `None` is NULL. The
    arrays they point at are taken as values when stored. */
module Programs {
  import opened CValues

  /** The tag that picks the exec variant (search PATH or not, pass an
      environment or not). */
  datatype DetailsTag = SearchNoEnv | NoSearchEnv | NoSearchNoEnv

  /** The newer binary-specification tags. */
  datatype BinTag = PathBin | ExactBin | WindowsBin | PlatformBin
  datatype EnvTag = SetEnv | NoEnv

  /** container_storage: a pointer to a container, read back as a pointer to
      its first element. */
  class ContainerStorage<T> {
    var val: Option<seq<T>>

    constructor ()
      ensures val == None
    {
      val := None;
    }

    /** get(): NULL while unset, otherwise the stored container's elements. */
    function Get(): (r: Option<seq<T>>)
      reads this
      ensures r.None? <==> val.None?
      ensures r.Some? ==> r.value == val.value
    {
      val
    }

    method Set(d: seq<T>)
      modifies this
      ensures val == Some(d)
    {
      val := Some(d);
    }
  }

  /** integral_storage: a stored pointer value, NULL at first. */
  class IntegralStorage<T> {
    var val: Option<T>

    constructor ()
      ensures val == None
    {
      val := None;
    }

    function Get(): (r: Option<T>)
      reads this
      ensures r == val
    {
      val
    }

    method Set(d: Option<T>)
      modifies this
      ensures val == d
    {
      val := d;
    }
  }

  /** A setter followed by a getter gives back what was set, for both
      storages, and a fresh storage reads as NULL. */
  method StorageRoundTrip(c: seq<int>, p: Option<int>) returns (c0: Option<seq<int>>, c1: Option<seq<int>>, p0: Option<int>, p1: Option<int>)
    ensures c0 == None && c1 == Some(c)
    ensures p0 == None && p1 == p
  {
    var cs := new ContainerStorage<int>();
    c0 := cs.Get();
    cs.Set(c);
    c1 := cs.Get();
    var st := new IntegralStorage<int>();
    p0 := st.Get();
    st.Set(p);
    p1 := st.Get();
  }

  /** binary<char**, Tag>: the path given to the constructor and two
      separately settable argv and envp pointers, both NULL at first. */
  class Binary {
    const tag: DetailsTag
    const path: CString
    var args: Option<seq<CString>>
    var env: Option<seq<CString>>

    constructor (tag: DetailsTag, path: CString)
      ensures this.tag == tag && this.path == path
      ensures args == None && env == None
    {
      this.tag, this.path := tag, path;
      args, env := None, None;
    }

    /** args(a): stores the pointer and returns the same object; env is
        untouched. */
    method SetArgs(a: Option<seq<CString>>) returns (self: Binary)
      modifies this
      ensures self == this
      ensures args == a && env == old(env)
    {
      args := a;
      self := this;
    }

    /** env(e): stores the pointer and returns the same object; args is
        untouched. */
    method SetEnv(e: Option<seq<CString>>) returns (self: Binary)
      modifies this
      ensures self == this
      ensures env == e && args == old(args)
    {
      env := e;
      self := this;
    }
  }

  /** path_program: searches PATH, no environment. */
  method NewPathProgram(path: CString) returns (b: Binary)
    ensures fresh(b) && b.tag == SearchNoEnv && b.path == path && b.args == None && b.env == None
  {
    b := new Binary(SearchNoEnv, path);
  }

  /** env_program: no PATH search, passes an environment. */
  method NewEnvProgram(path: CString) returns (b: Binary)
    ensures fresh(b) && b.tag == NoSearchEnv && b.path == path && b.args == None && b.env == None
  {
    b := new Binary(NoSearchEnv, path);
  }

  /** program: no PATH search, no environment. */
  method NewProgram(path: CString) returns (b: Binary)
    ensures fresh(b) && b.tag == NoSearchNoEnv && b.path == path && b.args == None && b.env == None
  {
    b := new Binary(NoSearchNoEnv, path);
  }

  /** The newer binary-details types: platform_binary, possibly wrapped any
      number of times in environment_set. */
  datatype BinaryDetails = PlatformBinary | EnvironmentSet(inner: BinaryDetails)

  /** bin_tag: platform_binary's own, and environment_set keeps the wrapped
      type's. */
  function BinTagOf(d: BinaryDetails): BinTag
  {
    match d
    case PlatformBinary => PlatformBin
    case EnvironmentSet(inner) => BinTagOf(inner)
  }

  /** env_tag: no_env_tag for platform_binary, set_env_tag once wrapped. */
  function EnvTagOf(d: BinaryDetails): EnvTag
  {
    match d
    case PlatformBinary => NoEnv
    case EnvironmentSet(_) => SetEnv
  }

  /** However often a platform_binary is wrapped, it keeps
      platform_bin_tag, and it uses an environment exactly when wrapped. */
  lemma {:induction false} TagsOfBinaryDetails(d: BinaryDetails)
    ensures BinTagOf(d) == PlatformBin
    ensures EnvTagOf(d) == SetEnv <==> d.EnvironmentSet?
  {
    match d
    case PlatformBinary =>
    case EnvironmentSet(inner) =>
      TagsOfBinaryDetails(inner);
  }
}
