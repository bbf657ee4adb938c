/**
 * The admin form that creates and edits a model (src/components/admin/ModelForm.tsx).
 *
 * `slugify` lives in a file this model does not include, so it is a parameter.
 * The queries, uploads, toasts and router calls are replaced by their outcomes,
 * passed in as arguments.
 */
module ModelForm {
  import opened Types

  /** The form fields as react-hook-form holds them. */
  datatype FormValues = FormValues(nome: string, bio: string, slug: Option<string>, redes: Option<string>)

  /** A row as written to the `models` table. */
  datatype Row = Row(
    nome: string,
    bio: string,
    slug: string,
    redes: Option<string>,
    avatarUrl: Option<string>,
    bannerUrl: Option<string>)

  /** The single write `onSubmit` issues. */
  datatype Write = Insert(rows: seq<Row>) | Update(id: string, row: Row)

  const DefaultValues := FormValues("", "", Some(""), Some(""))
  const SaveErrorPrefix := "Erro ao salvar: "
  const NotFoundMessage := "Modelo não encontrado"

  /** `!!modelId`. */
  predicate IsEditMode(modelId: Option<string>)
  {
    modelId.Some? && modelId.value != ""
  }

  /** One character of the class `[a-z0-9-]`. */
  predicate SlugChar(c: char)
  {
    'a' <= c <= 'z' || '0' <= c <= '9' || c == '-'
  }

  predicate WellFormedSlug(s: string)
  {
    |s| >= 2 && forall i :: 0 <= i < |s| ==> SlugChar(s[i])
  }

  /** `formSchema` as written: zod's `.optional()` admits only an absent slug, never "". */
  predicate SchemaAcceptsAsWritten(v: FormValues)
  {
    |v.nome| >= 3 && |v.bio| >= 10 && (v.slug.None? || WellFormedSlug(v.slug.value))
  }

  /** `formSchema` with an empty slug field treated as absent, as the submit fallback expects. */
  predicate SchemaAccepts(v: FormValues)
  {
    |v.nome| >= 3 && |v.bio| >= 10 && (v.slug.None? || v.slug.value == "" || WellFormedSlug(v.slug.value))
  }

  /** The form reset with a loaded model: nulls become "". */
  function LoadedValues(m: Model): FormValues
  {
    FormValues(m.nome, if m.bio.Some? then m.bio.value else "",
               Some(if m.slug.Some? then m.slug.value else ""),
               Some(if m.redes.Some? then m.redes.value else ""))
  }

  /** `slugValue`: the typed slug when non-empty, else the slug of the name. */
  function StoredSlug(v: FormValues, slugify: string -> string): string
  {
    if v.slug.Some? && |v.slug.value| > 0 then v.slug.value else slugify(v.nome)
  }

  /** `finalData`: the form values with the resolved slug and image URLs. */
  function FinalData(v: FormValues, avatarUrl: Option<string>, bannerUrl: Option<string>, slugify: string -> string): Row
  {
    Row(v.nome, v.bio, StoredSlug(v, slugify), v.redes, avatarUrl, bannerUrl)
  }

  /** A newly uploaded URL replaces the existing one only when a file was chosen. */
  function ChooseUrl(fileChosen: bool, upload: Result<string, string>, existing: Option<string>): Option<string>
    requires fileChosen ==> upload.Ok?
  {
    if fileChosen then Some(upload.value) else existing
  }

  function PlannedWrite(modelId: Option<string>, row: Row): Write
  {
    if IsEditMode(modelId) then Update(modelId.value, row) else Insert([row])
  }

  /**
   * How the backend answers one save: what `createClient()` returned or threw, each
   * upload's public URL or the error thrown (consulted only when a file was chosen),
   * and the error of the insert or update, if any.
   */
  datatype SaveReplies = SaveReplies(
    client: Result<nat, string>,
    avatarUpload: Result<string, string>,
    bannerUpload: Result<string, string>,
    writeError: Option<string>)

  /** What a save ends with: the write issued, if any, and the message shown above the form. */
  datatype Outcome = Outcome(write: Option<Write>, formError: Option<string>)

  /** The outcome of `onSubmit(v)`: the first failure in the order client, avatar, banner aborts; otherwise one write. */
  function SubmitOutcome(modelId: Option<string>, v: FormValues, avatarFile: bool, bannerFile: bool,
                         existingAvatarUrl: Option<string>, existingBannerUrl: Option<string>,
                         r: SaveReplies, slugify: string -> string): Outcome
  {
    if r.client.Err? then Outcome(None, Some(SaveErrorPrefix + r.client.error))
    else if avatarFile && r.avatarUpload.Err? then Outcome(None, Some(SaveErrorPrefix + r.avatarUpload.error))
    else if bannerFile && r.bannerUpload.Err? then Outcome(None, Some(SaveErrorPrefix + r.bannerUpload.error))
    else
      var row := FinalData(v, ChooseUrl(avatarFile, r.avatarUpload, existingAvatarUrl),
                           ChooseUrl(bannerFile, r.bannerUpload, existingBannerUrl), slugify);
      Outcome(Some(PlannedWrite(modelId, row)),
              if r.writeError.Some? then Some(SaveErrorPrefix + r.writeError.value) else None)
  }

  // The slug auto-fill, as a state machine over field edits.

  datatype Edit = EditNome(nome: string) | EditSlug(slug: string)

  /** The part of the form state the `onChange` handlers touch. */
  datatype Fields = Fields(values: FormValues, slugEdited: bool)

  function Step(s: Fields, e: Edit, slugify: string -> string): Fields
  {
    match e
    case EditNome(n) =>
      if s.slugEdited then s.(values := s.values.(nome := n))
      else s.(values := s.values.(nome := n, slug := Some(slugify(n))))
    case EditSlug(t) => Fields(s.values.(slug := Some(t)), true)
  }

  function Replay(s: Fields, edits: seq<Edit>, slugify: string -> string): Fields
    decreases |edits|
  {
    if edits == [] then s else Replay(Step(s, edits[0], slugify), edits[1..], slugify)
  }

  predicate NoSlugEdits(edits: seq<Edit>)
  {
    forall i :: 0 <= i < |edits| ==> edits[i].EditNome?
  }

  /** The slug after `edits` once it has been edited: the last slug typed, or the starting one. */
  function LastSlug(edits: seq<Edit>, start: Option<string>): Option<string>
  {
    if edits == [] then start
    else LastSlug(edits[1..], if edits[0].EditSlug? then Some(edits[0].slug) else start)
  }

  /** The last name typed, if any. */
  function LastNome(edits: seq<Edit>, start: Option<string>): Option<string>
  {
    if edits == [] then start
    else LastNome(edits[1..], if edits[0].EditNome? then Some(edits[0].nome) else start)
  }

  /** The name field always holds the last name typed. */
  lemma {:induction false} ReplayNome(s: Fields, edits: seq<Edit>, slugify: string -> string)
    ensures Replay(s, edits, slugify).values.nome ==
      (if LastNome(edits, None).Some? then LastNome(edits, None).value else s.values.nome)
    decreases |edits|
  {
    if edits != [] {
      ReplayNome(Step(s, edits[0], slugify), edits[1..], slugify);
      LastNomeFrom(edits[1..], edits[0]);
    }
  }

  lemma {:induction false} LastNomeFrom(rest: seq<Edit>, first: Edit)
    ensures LastNome([first] + rest, None) ==
      (if LastNome(rest, None).Some? then LastNome(rest, None)
       else if first.EditNome? then Some(first.nome) else None)
  {
    assert ([first] + rest)[1..] == rest;
    LastNomeStart(rest, if first.EditNome? then Some(first.nome) else None);
  }

  lemma {:induction false} LastNomeStart(edits: seq<Edit>, start: Option<string>)
    ensures LastNome(edits, start) == (if LastNome(edits, None).Some? then LastNome(edits, None) else start)
  {
    if edits != [] {
      var next := if edits[0].EditNome? then Some(edits[0].nome) else start;
      var next0 := if edits[0].EditNome? then Some(edits[0].nome) else None;
      LastNomeStart(edits[1..], next);
      LastNomeStart(edits[1..], next0);
    }
  }

  /** While the slug was never edited, every name edit rewrites it as the slug of that name. */
  lemma {:induction false} SlugFollowsNome(s: Fields, edits: seq<Edit>, slugify: string -> string)
    requires !s.slugEdited && NoSlugEdits(edits) && edits != []
    ensures !Replay(s, edits, slugify).slugEdited
    ensures Replay(s, edits, slugify).values.slug == Some(slugify(Replay(s, edits, slugify).values.nome))
    ensures Replay(s, edits, slugify).values.nome == edits[|edits| - 1].nome
    decreases |edits|
  {
    var s' := Step(s, edits[0], slugify);
    if |edits| > 1 {
      SlugFollowsNome(s', edits[1..], slugify);
    }
  }

  /** Once the slug was edited, name edits leave it alone: it is the last slug typed. */
  lemma {:induction false} EditedSlugSticks(s: Fields, edits: seq<Edit>, slugify: string -> string)
    requires s.slugEdited
    ensures Replay(s, edits, slugify).slugEdited
    ensures Replay(s, edits, slugify).values.slug == LastSlug(edits, s.values.slug)
    decreases |edits|
  {
    if edits != [] {
      EditedSlugSticks(Step(s, edits[0], slugify), edits[1..], slugify);
    }
  }

  /** Any slug edit marks the slug as edited. */
  lemma {:induction false} SlugEditMarks(s: Fields, edits: seq<Edit>, slugify: string -> string)
    requires !NoSlugEdits(edits)
    ensures Replay(s, edits, slugify).slugEdited
    decreases |edits|
  {
    if edits[0].EditSlug? {
      EditedSlugSticks(Step(s, edits[0], slugify), edits[1..], slugify);
    } else {
      var i :| 0 <= i < |edits| && !edits[i].EditNome?;
      assert edits[1..][i - 1] == edits[i];
      SlugEditMarks(Step(s, edits[0], slugify), edits[1..], slugify);
    }
  }

  // Properties of the schema and of the submitted data.

  /** The schema's length and character rules. */
  lemma SchemaRules(v: FormValues)
    ensures SchemaAccepts(v) ==> |v.nome| >= 3 && |v.bio| >= 10
    ensures SchemaAccepts(v) && v.slug.Some? && v.slug.value != "" ==>
      |v.slug.value| >= 2 && forall i :: 0 <= i < |v.slug.value| ==> SlugChar(v.slug.value[i])
    ensures |v.nome| >= 3 && |v.bio| >= 10 && v.slug.None? ==> SchemaAccepts(v)
    ensures SchemaAccepts(v) <==> SchemaAccepts(v.(redes := None))
  {
  }

  /** As written, a model loaded without a slug cannot be saved until its slug field is filled. */
  lemma LoadedWithoutSlugRejected(m: Model)
    requires m.slug.None?
    ensures LoadedValues(m).slug == Some("")
    ensures !SchemaAcceptsAsWritten(LoadedValues(m))
  {
  }

  /** As written, the empty-slug fallback of `onSubmit` is dead: every accepted slug is kept. */
  lemma AsWrittenFallbackDead(v: FormValues, slugify: string -> string)
    requires SchemaAcceptsAsWritten(v) && v.slug.Some?
    ensures StoredSlug(v, slugify) == v.slug.value
  {
  }

  /** With the empty slug treated as absent, such a model saves under the slug of its name. */
  lemma EmptySlugFallsBack(m: Model, slugify: string -> string)
    requires m.slug.None? && |m.nome| >= 3 && m.bio.Some? && |m.bio.value| >= 10
    ensures SchemaAccepts(LoadedValues(m))
    ensures StoredSlug(LoadedValues(m), slugify) == slugify(m.nome)
  {
  }

  /** The corrected schema accepts everything the written one does, and differs only on the empty slug. */
  lemma SchemaCorrectionConservative(v: FormValues)
    ensures SchemaAcceptsAsWritten(v) ==> SchemaAccepts(v)
    ensures SchemaAccepts(v) && !SchemaAcceptsAsWritten(v) ==> v.slug == Some("")
  {
  }

  /** The stored row keeps the form's fields, with the slug falling back to the slug of the name. */
  lemma FinalDataFields(v: FormValues, avatarUrl: Option<string>, bannerUrl: Option<string>, slugify: string -> string)
    ensures var r := FinalData(v, avatarUrl, bannerUrl, slugify);
      r.nome == v.nome && r.bio == v.bio && r.redes == v.redes &&
      r.avatarUrl == avatarUrl && r.bannerUrl == bannerUrl
    ensures v.slug.Some? && v.slug.value != "" ==> FinalData(v, avatarUrl, bannerUrl, slugify).slug == v.slug.value
    ensures v.slug.None? || v.slug == Some("") ==> FinalData(v, avatarUrl, bannerUrl, slugify).slug == slugify(v.nome)
  {
  }

  /** With an id the row is updated in place; without one exactly one row is inserted. */
  lemma WriteChoice(modelId: Option<string>, row: Row)
    ensures IsEditMode(modelId) ==> PlannedWrite(modelId, row) == Update(modelId.value, row)
    ensures !IsEditMode(modelId) ==> PlannedWrite(modelId, row).Insert? && PlannedWrite(modelId, row).rows == [row]
  {
  }

  /** The save outcomes in abort order; a save that gets past the uploads issues exactly one write of the final data. */
  lemma SubmitOutcomeCases(modelId: Option<string>, v: FormValues, avatarFile: bool, bannerFile: bool,
                           existingAvatarUrl: Option<string>, existingBannerUrl: Option<string>,
                           r: SaveReplies, slugify: string -> string)
    ensures var o := SubmitOutcome(modelId, v, avatarFile, bannerFile, existingAvatarUrl, existingBannerUrl, r, slugify);
      (r.client.Err? ==> o == Outcome(None, Some(SaveErrorPrefix + r.client.error))) &&
      (r.client.Ok? && avatarFile && r.avatarUpload.Err? ==>
        o == Outcome(None, Some(SaveErrorPrefix + r.avatarUpload.error))) &&
      (r.client.Ok? && (!avatarFile || r.avatarUpload.Ok?) && bannerFile && r.bannerUpload.Err? ==>
        o == Outcome(None, Some(SaveErrorPrefix + r.bannerUpload.error)))
    ensures var o := SubmitOutcome(modelId, v, avatarFile, bannerFile, existingAvatarUrl, existingBannerUrl, r, slugify);
      o.write.Some? <==> r.client.Ok? && (!avatarFile || r.avatarUpload.Ok?) && (!bannerFile || r.bannerUpload.Ok?)
    ensures var o := SubmitOutcome(modelId, v, avatarFile, bannerFile, existingAvatarUrl, existingBannerUrl, r, slugify);
      o.write.Some? ==>
        var row := (if IsEditMode(modelId) then o.write.value.row else o.write.value.rows[0]);
        (IsEditMode(modelId) ==> o.write.value == Update(modelId.value, row)) &&
        (!IsEditMode(modelId) ==> o.write.value == Insert([row])) &&
        row.nome == v.nome && row.bio == v.bio && row.slug == StoredSlug(v, slugify) &&
        row.avatarUrl == (if avatarFile then Some(r.avatarUpload.value) else existingAvatarUrl) &&
        row.bannerUrl == (if bannerFile then Some(r.bannerUpload.value) else existingBannerUrl) &&
        (o.formError.Some? <==> r.writeError.Some?)
  {
  }

  /** The component's state. */
  class FormState {
    /** The `modelId` prop. */
    const modelId: Option<string>
    var values: FormValues
    var slugEdited: bool
    /** Whether a file was picked in the avatar and banner inputs. */
    var avatarFile: bool
    var bannerFile: bool
    var existingAvatarUrl: Option<string>
    var existingBannerUrl: Option<string>
    var loading: bool
    var formError: Option<string>
    var showDeleteModal: bool

    constructor (modelId: Option<string>)
      ensures this.modelId == modelId && values == DefaultValues && !slugEdited
      ensures !avatarFile && !bannerFile && existingAvatarUrl == None && existingBannerUrl == None
      ensures !loading && formError == None && !showDeleteModal
    {
      this.modelId := modelId;
      values := DefaultValues;
      slugEdited := false;
      avatarFile := false;
      bannerFile := false;
      existingAvatarUrl := None;
      existingBannerUrl := None;
      loading := false;
      formError := None;
      showDeleteModal := false;
    }

    /** The name input's `onChange`. */
    method OnNomeChange(nome: string, slugify: string -> string)
      modifies this`values
      ensures Fields(values, slugEdited) == Step(old(Fields(values, slugEdited)), EditNome(nome), slugify)
    {
      if !slugEdited {
        values := values.(slug := Some(slugify(nome)));
      }
      values := values.(nome := nome);
    }

    /** The slug input's `onChange`. */
    method OnSlugChange(slug: string)
      modifies this`values, this`slugEdited
      ensures Fields(values, slugEdited) == Step(old(Fields(values, slugEdited)), EditSlug(slug), _ => "")
    {
      slugEdited := true;
      values := values.(slug := Some(slug));
    }

    /** The edit-mode load effect, given what the `models` query returned. */
    method FetchModel(reply: Result<Model, string>)
      modifies this`values, this`existingAvatarUrl, this`existingBannerUrl, this`slugEdited, this`loading, this`formError
      ensures !IsEditMode(modelId) ==>
        values == old(values) && slugEdited == old(slugEdited) && loading == old(loading) && formError == old(formError) &&
        existingAvatarUrl == old(existingAvatarUrl) && existingBannerUrl == old(existingBannerUrl)
      ensures IsEditMode(modelId) ==> !loading
      ensures IsEditMode(modelId) && reply.Ok? ==>
        values == LoadedValues(reply.value) &&
        existingAvatarUrl == reply.value.avatarUrl && existingBannerUrl == reply.value.bannerUrl &&
        slugEdited == (reply.value.slug.Some? && reply.value.slug.value != "") && formError == old(formError)
      ensures IsEditMode(modelId) && reply.Err? ==>
        values == old(values) && slugEdited == old(slugEdited) &&
        existingAvatarUrl == old(existingAvatarUrl) && existingBannerUrl == old(existingBannerUrl) &&
        formError == Some(if reply.error != "" then reply.error else NotFoundMessage)
    {
      if !IsEditMode(modelId) {
        return;
      }
      loading := true;
      match reply {
        case Ok(m) =>
          values := LoadedValues(m);
          existingAvatarUrl := m.avatarUrl;
          existingBannerUrl := m.bannerUrl;
          slugEdited := m.slug.Some? && m.slug.value != "";
        case Err(message) =>
          formError := Some(if message != "" then message else NotFoundMessage);
      }
      loading := false;
    }

    /** `onSubmit(v)`: clear the error, then save; returns the write issued, if any. */
    method Submit(v: FormValues, r: SaveReplies, slugify: string -> string) returns (write: Option<Write>)
      modifies this`loading, this`formError
      ensures !loading
      ensures Outcome(write, formError) ==
        SubmitOutcome(modelId, v, avatarFile, bannerFile, existingAvatarUrl, existingBannerUrl, r, slugify)
    {
      loading := true;
      formError := None;
      write := None;
      if r.client.Err? {
        formError := Some(SaveErrorPrefix + r.client.error);
        loading := false;
        return;
      }
      var avatarUrl := existingAvatarUrl;
      var bannerUrl := existingBannerUrl;
      if avatarFile {
        if r.avatarUpload.Err? {
          formError := Some(SaveErrorPrefix + r.avatarUpload.error);
          loading := false;
          return;
        }
        avatarUrl := Some(r.avatarUpload.value);
      }
      if bannerFile {
        if r.bannerUpload.Err? {
          formError := Some(SaveErrorPrefix + r.bannerUpload.error);
          loading := false;
          return;
        }
        bannerUrl := Some(r.bannerUpload.value);
      }
      var slugValue := if v.slug.Some? && |v.slug.value| > 0 then v.slug.value else slugify(v.nome);
      var finalData := Row(v.nome, v.bio, slugValue, v.redes, avatarUrl, bannerUrl);
      write := Some(if IsEditMode(modelId) then Update(modelId.value, finalData) else Insert([finalData]));
      if r.writeError.Some? {
        formError := Some(SaveErrorPrefix + r.writeError.value);
      }
      loading := false;
    }

    /** `form.handleSubmit(onSubmit)`: values the schema rejects are not submitted; accepted ones are saved. */
    method HandleSubmit(r: SaveReplies, slugify: string -> string) returns (write: Option<Write>)
      modifies this`loading, this`formError
      ensures !SchemaAccepts(values) ==> write == None && loading == old(loading) && formError == old(formError)
      ensures SchemaAccepts(values) ==>
        !loading &&
        Outcome(write, formError) ==
          SubmitOutcome(modelId, values, avatarFile, bannerFile, existingAvatarUrl, existingBannerUrl, r, slugify)
    {
      write := None;
      if SchemaAccepts(values) {
        write := Submit(values, r, slugify);
      }
    }

    /** `handleDelete`: nothing without an id; otherwise the load ends and the modal closes. Returns the id deleted. */
    method HandleDelete(client: Result<nat, string>) returns (deleted: Option<string>)
      modifies this`loading, this`showDeleteModal
      ensures !IsEditMode(modelId) ==>
        deleted == None && loading == old(loading) && showDeleteModal == old(showDeleteModal)
      ensures IsEditMode(modelId) ==> !loading && !showDeleteModal
      ensures IsEditMode(modelId) ==> deleted == (if client.Ok? then Some(modelId.value) else None)
    {
      deleted := None;
      if !IsEditMode(modelId) {
        return;
      }
      loading := true;
      if client.Ok? {
        deleted := Some(modelId.value);
      }
      loading := false;
      showDeleteModal := false;
    }
  }
}
