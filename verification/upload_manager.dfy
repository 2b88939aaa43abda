/**
 * The upload-provider registry: a map from provider name to factory,
 * filled with "minio" at start-up, and the Provider interface as a
 * datatype over the implementations the model knows.
 */
module UploadManager {
  import opened Base
  import opened Values
  import opened Foreign
  import Minio

  /**
   * An upload provider. MinIO is the built-in one; `Custom` stands for a
   * provider registered from elsewhere, known only by its name.
   */
  datatype Provider = MinioProvider(state: Minio.MinioProvider) | Custom(name: string) {
    /** Name(): the provider's registry name. */
    function Name(): string {
      match this
      case MinioProvider(_) => "minio"
      case Custom(n) => n
    }
  }

  /** ProviderFactory: makes a fresh provider. */
  type Factory = () -> Provider

  type Registry = map<string, Factory>

  datatype ProviderError = UnknownProvider(name: string)

  /** RegisterProvider: the name now maps to the factory, replacing any earlier one. */
  function RegisterProvider(reg: Registry, name: string, factory: Factory): (r: Registry)
    ensures name in r && r[name] == factory
    ensures r.Keys == reg.Keys + {name}
    ensures forall n :: n in reg && n != name ==> r[n] == reg[n]
  {
    reg[name := factory]
  }

  /** NewProvider: a fresh provider from the named factory, or an error naming the unknown provider. */
  function NewProvider(reg: Registry, name: string): (r: Result<Provider, ProviderError>)
    ensures r.Err? <==> name !in reg
    ensures r.Err? ==> r.error == UnknownProvider(name)
    ensures r.Ok? ==> r.value == reg[name]()
  {
    if name in reg then Ok(reg[name]()) else Err(UnknownProvider(name))
  }

  /** The factory registered for "minio": an unconfigured MinIO provider. */
  function MinioFactory(): (p: Provider)
    ensures p.Name() == "minio" && p.MinioProvider? && p.state.client.None?
  {
    MinioProvider(Minio.NewMinioProvider)
  }

  /** The registry after package initialisation. */
  const InitialRegistry: Registry := RegisterProvider(map[], "minio", MinioFactory)

  /** A registered name gives what its factory makes; registering leaves other names resolving as before. */
  lemma RegisterThenNew(reg: Registry, name: string, factory: Factory, other: string)
    ensures NewProvider(RegisterProvider(reg, name, factory), name) == Ok(factory())
    ensures other != name ==> NewProvider(RegisterProvider(reg, name, factory), other) == NewProvider(reg, other)
  {
  }

  /** Registering a name twice keeps only the second factory. */
  lemma ReRegisterReplaces(reg: Registry, name: string, f: Factory, g: Factory)
    ensures RegisterProvider(RegisterProvider(reg, name, f), name, g) == RegisterProvider(reg, name, g)
  {
  }

  /** Only "minio" is known at start-up, and it yields an unconfigured MinIO provider. */
  lemma InitialProviders(name: string)
    ensures InitialRegistry.Keys == {"minio"}
    ensures NewProvider(InitialRegistry, "minio") == Ok(MinioProvider(Minio.NewMinioProvider))
    ensures name != "minio" ==> NewProvider(InitialRegistry, name) == Err(UnknownProvider(name))
  {
  }
}
