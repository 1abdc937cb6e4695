/** The boundary between the core and the external providers: handles for the
    embedding model, the vector database and the language model, the outcomes
    of calls into them, the configuration the core reads, and the environment
    through which resources are built. Only these boundaries are modelled; what
    happens inside a provider is not. */
module Providers {
  import opened Text

  /** The outcome of a call that either returns or raises an exception. */
  datatype Result<T> = Success(value: T) | Failure(error: string)

  /** The outcome of a call run under a deadline: it returns, runs past the
      deadline, or raises an exception. */
  datatype Outcome<T> = Ok(value: T) | TimedOut | Err(message: string)

  /** A chunk of the source document, as the splitter hands it to the database. */
  datatype Chunk = Chunk(text: string, source: string, page: int)

  /** A retrieved chunk with its similarity score; the score is opaque to the core. */
  type Scored = (Chunk, real)

  /** Opaque provider handles. Two handles are the same instance iff they are equal. */
  datatype Embedding = Embedding(choice: string, instance: nat)
  datatype VectorStore = VectorStore(path: string, instance: nat)
  datatype LanguageModel = LanguageModel(instance: nat)

  /** The configuration values the core reads: the domain keyword list, the
      history bound, the number of chunks retrieved, the default database
      directory and the size of the domain dictionary. */
  datatype Config = Config(
    keywords: seq<string>,
    maxHistory: nat,
    topK: nat,
    chromaDir: string,
    dictionarySize: nat)

  /** The external factories resources are built through, and the file-system
      removal. `documents` is the loading and splitting of the source document;
      `clearDirectory(path)` removes a database directory (nothing to do when it
      does not exist) and fails when the removal raised; `keyHash` is the hex
      digest that names a cached language model (MD5 of the API key), taken as
      an uninterpreted function. */
  datatype Environment = Environment(
    createEmbedding: string -> Result<Embedding>,
    documents: Result<seq<Chunk>>,
    openDatabase: (string, Embedding) -> Result<VectorStore>,
    addDocuments: (VectorStore, seq<Chunk>) -> Result<()>,
    createLlm: string -> Result<LanguageModel>,
    clearDirectory: string -> Result<()>,
    keyHash: string -> string)

  /** Python truthiness of an optional string: present and not empty. */
  predicate Truthy(s: Option<string>)
  {
    s.Some? && s.value != ""
  }
}
