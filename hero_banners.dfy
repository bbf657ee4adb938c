/** The hero carousel's slide list (src/components/content-cove/hero-banners.tsx). */
module HeroBanners {
  import opened Types
  import Text

  const FallbackTitle := "Conteúdo premium"
  const PlaceholderLimit := 4

  /** A slide: a supplied banner as it is, or a banner-like record built from a placeholder. */
  datatype HeroItem =
    | FromBanner(banner: Banner)
    | Placeholder(id: string, titulo: string, tipo: MediaKind, url: string, link: Option<string>)

  function ItemId(item: HeroItem): string
  {
    if item.FromBanner? then item.banner.id else item.id
  }

  function PlaceholderId(index: nat): string
  {
    "placeholder-" + Text.Decimal(index)
  }

  /** The `map` callback: `media.hint || 'Conteúdo premium'`, the placeholder's type, and no link. */
  function ToPlaceholder(media: MediaItem, index: nat): HeroItem
  {
    Placeholder(PlaceholderId(index),
                if media.hint.Some? && media.hint.value != "" then media.hint.value else FallbackTitle,
                media.kind, media.url, None)
  }

  function Min(a: nat, b: nat): nat
  {
    if a <= b then a else b
  }

  /** `items`: the banners when there are any, else the first four placeholders. */
  function Items(banners: seq<Banner>, placeholders: seq<MediaItem>): seq<HeroItem>
  {
    if |banners| > 0 then seq(|banners|, i requires 0 <= i < |banners| => FromBanner(banners[i]))
    else
      var shown := placeholders[..Min(PlaceholderLimit, |placeholders|)];
      seq(|shown|, i requires 0 <= i < |shown| => ToPlaceholder(shown[i], i))
  }

  /** The badge text `+{items.length} banners`. */
  function BadgeText(items: seq<HeroItem>): string
  {
    "+" + Text.Decimal(|items|) + " banners"
  }

  /** Supplied banners are shown unchanged and in order. */
  lemma BannersUsedAsIs(banners: seq<Banner>, placeholders: seq<MediaItem>)
    requires |banners| > 0
    ensures |Items(banners, placeholders)| == |banners|
    ensures forall i :: 0 <= i < |banners| ==> Items(banners, placeholders)[i] == FromBanner(banners[i])
  {
  }

  /** Without banners the slides are the first min(4, n) placeholders, in order, with their fields mapped. */
  lemma PlaceholderFallback(placeholders: seq<MediaItem>)
    ensures |Items([], placeholders)| == Min(PlaceholderLimit, |placeholders|) <= PlaceholderLimit
    ensures forall i :: 0 <= i < |Items([], placeholders)| ==>
      var item, media := Items([], placeholders)[i], placeholders[i];
      item.Placeholder? && item.id == PlaceholderId(i) && item.tipo == media.kind &&
      item.url == media.url && item.link == None &&
      (media.hint.Some? && media.hint.value != "" ==> item.titulo == media.hint.value) &&
      (media.hint.None? || media.hint.value == "" ==> item.titulo == FallbackTitle)
  {
  }

  /** Placeholder ids are pairwise distinct. */
  lemma PlaceholderIdsDistinct(placeholders: seq<MediaItem>)
    ensures forall i, j :: 0 <= i < j < |Items([], placeholders)| ==>
      ItemId(Items([], placeholders)[i]) != ItemId(Items([], placeholders)[j])
  {
    forall i, j | 0 <= i < j < |Items([], placeholders)|
      ensures ItemId(Items([], placeholders)[i]) != ItemId(Items([], placeholders)[j])
    {
      if PlaceholderId(i) == PlaceholderId(j) {
        var prefix := "placeholder-";
        assert PlaceholderId(i)[|prefix|..] == Text.Decimal(i);
        assert PlaceholderId(j)[|prefix|..] == Text.Decimal(j);
        Text.DecimalInjective(i, j);
      }
    }
  }

  /** The badge shows the number of slides: different counts never give the same text. */
  lemma BadgeCountsItems(a: seq<HeroItem>, b: seq<HeroItem>)
    ensures BadgeText(a) == BadgeText(b) <==> |a| == |b|
  {
    if BadgeText(a) == BadgeText(b) {
      var da, db := Text.Decimal(|a|), Text.Decimal(|b|);
      assert |da| == |db|;
      assert BadgeText(a)[1..1 + |da|] == da;
      assert BadgeText(b)[1..1 + |db|] == db;
      Text.DecimalInjective(|a|, |b|);
    }
  }
}
