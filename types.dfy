/** Record shapes shared by the admin pages and the public showcase (src/types/index.ts). */
module Types {

  datatype Option<T> = None | Some(value: T)

  datatype Result<T, E> = Ok(value: T) | Err(error: E)

  /** The `tipo` of a media row: 'photo' | 'video'. */
  datatype MediaKind = Photo | Video

  /** The `tipo` of a banner row: 'image' | 'video'. */
  datatype BannerKind = ImageBanner | VideoBanner

  /** A model (creator) profile. Optional and nullable columns are both `Option`. */
  datatype Model = Model(
    id: int,
    nome: string,
    bio: Option<string>,
    avatarUrl: Option<string>,
    bannerUrl: Option<string>,
    redes: Option<string>,
    slug: Option<string>)

  /** A promotional banner shown in the hero carousel. */
  datatype Banner = Banner(
    id: string,
    createdAt: string,
    titulo: string,
    tipo: BannerKind,
    url: Option<string>,
    link: Option<string>,
    ordem: int,
    ativo: bool)

  /** A media row; `modelName` is the optional joined `models.nome`. */
  datatype Media = Media(
    id: int,
    createdAt: string,
    modeloId: int,
    url: string,
    tipo: MediaKind,
    descricao: Option<string>,
    publicarEm: Option<string>,
    modelName: Option<string>)

  /** An entry of the bundled placeholder media list used by the public pages. */
  datatype MediaItem = MediaItem(id: string, url: string, kind: MediaKind, hint: Option<string>)
}
