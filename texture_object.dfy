// A texture together with its view, sampler and source images: descriptor
// merging, the upload-once flag, and the lazily (re)created device objects.
module Textures {
  import opened Js
  import opened Gpu

  /** The `{texture, view, sampler}` descriptor object. */
  datatype TextureDescriptor = TextureDescriptor(texture: Option<Props>, view: Option<Props>, sampler: Option<Props>)

  const NoDescriptor := TextureDescriptor(None, None, None)

  /** `source && (target = Object.assign(target ?? {}, source))`: the keys of `source` win. */
  function Assign(target: Option<Props>, source: Option<Props>): (r: Option<Props>)
    ensures source.None? ==> r == target
    ensures source.Some? ==> r.Some? && forall k :: k in r.value <==> k in source.value || (target.Some? && k in target.value)
    ensures source.Some? ==> forall k :: k in source.value ==> r.value[k] == source.value[k]
    ensures source.Some? && target.Some? ==> forall k :: k in target.value && k !in source.value ==> r.value[k] == target.value[k]
  {
    if source.None? then target else Some(target.OrElse(map[]) + source.value)
  }

  /** The descriptor after `updateDescriptor(u)`: adopted when there was none, merged part by part otherwise. */
  function Updated(d: Option<TextureDescriptor>, u: TextureDescriptor): TextureDescriptor
  {
    if d.None? then u
    else TextureDescriptor(Assign(d.value.texture, u.texture), Assign(d.value.view, u.view), Assign(d.value.sampler, u.sampler))
  }

  /** The copies of the first `i` images into layers 0 .. i-1 of texture `t`. */
  function Uploads(t: Handle, images: seq<Image>, i: nat): (calls: seq<Call>)
    requires i <= |images|
    ensures |calls| == i
    ensures forall j :: 0 <= j < i ==> calls[j] == Issued(CopyImageToTexture(images[j], t, j))
  {
    if i == 0 then [] else Uploads(t, images, i - 1) + [Issued(CopyImageToTexture(images[i - 1], t, i - 1))]
  }

  /** The uploads `updateBuffer` makes into `t` in a state with flag `loaded` and images `images`. */
  function UploadsIfPending(t: Handle, loaded: bool, images: Option<seq<Image>>): seq<Call>
  {
    if !loaded && images.Some? then Uploads(t, images.value, |images.value|) else []
  }

  /** The trace a texture release appends. */
  function ReleaseCalls(t: Option<Handle>): seq<Call>
  {
    if t.Some? then [Issued(DestroyTexture(t.value))] else []
  }

  /** The static set of every texture object constructed. */
  class TextureRegistry {
    var members: set<TextureObject>

    constructor()
      ensures members == {}
    {
      members := {};
    }
  }

  class TextureObject {
    var descriptor: Option<TextureDescriptor>
    var texture: Option<Handle>
    var view: Option<Handle>
    var images: Option<seq<Image>>
    var sampler: Option<Handle>
    var loaded: bool

    /** `new TextureObject(descriptor)`: stores the descriptor and registers the object. */
    constructor(registry: TextureRegistry, desc: Option<TextureDescriptor>)
      modifies registry
      ensures descriptor == desc && texture == None && view == None && sampler == None
      ensures images == None && !loaded
      ensures registry.members == old(registry.members) + {this}
    {
      descriptor := desc;
      texture := None;
      view := None;
      images := None;
      sampler := None;
      loaded := false;
      new;
      registry.members := registry.members + {this};
    }

    /** `destroy()`: release the texture and forget it and its view; the sampler and the flag stay. */
    method Destroy(device: Device)
      modifies this, device
      ensures device.trace == old(device.trace) + ReleaseCalls(old(texture)) && device.next == old(device.next)
      ensures texture == None
      ensures view == (if old(texture).Some? then None else old(view))
      ensures descriptor == old(descriptor) && images == old(images) && sampler == old(sampler) && loaded == old(loaded)
    {
      if texture.Some? {
        device.Issue(DestroyTexture(texture.value));
        texture := None;
        view := None;
      }
    }

    /** `updateDescriptor(desc)`: always releases the texture first. */
    method UpdateDescriptor(device: Device, u: TextureDescriptor)
      modifies this, device
      ensures device.trace == old(device.trace) + ReleaseCalls(old(texture)) && device.next == old(device.next)
      ensures descriptor == Some(Updated(old(descriptor), u))
      ensures texture == None
      ensures view == (if old(texture).Some? then None else old(view))
      ensures images == old(images) && sampler == old(sampler) && loaded == old(loaded)
    {
      Destroy(device);
      descriptor := Some(Updated(descriptor, u));
    }

    /** `setImageAsync(image)`, once the bitmap has been decoded. */
    method SetImage(bitmap: Image)
      modifies this
      ensures images == Some([bitmap]) && !loaded
      ensures descriptor == old(descriptor) && texture == old(texture) && view == old(view) && sampler == old(sampler)
    {
      images := Some([bitmap]);
      loaded := false;
    }

    /** `setImagesAsync(images)`, once every bitmap has been decoded. */
    method SetImages(bitmaps: seq<Image>)
      modifies this
      ensures images == Some(bitmaps) && !loaded
      ensures descriptor == old(descriptor) && texture == old(texture) && view == old(view) && sampler == old(sampler)
    {
      images := Some(bitmaps);
      loaded := false;
    }

    /**
     * `updateBuffer(device)`: when not loaded and there are images, copy
     * image i into layer i of the texture and set the flag. Without a
     * texture, the inner `getTexture` creates one and already uploads once,
     * so the images are copied twice.
     */
    method UpdateBuffer(device: Device)
      modifies this, device
      decreases if texture.None? then 3 else 1
      ensures old(loaded) || old(images).None? ==> unchanged(this, device)
      ensures !old(loaded) && old(images).Some? && old(texture).Some? ==>
        && device.trace == old(device.trace) + Uploads(old(texture).value, old(images).value, |old(images).value|)
        && device.next == old(device.next)
        && loaded && texture == old(texture) && view == old(view) && descriptor == old(descriptor)
      ensures !old(loaded) && old(images).Some? && old(texture).None? ==>
        var t := old(device.next);
        var d := Updated(old(descriptor), TextureDescriptor(Some(map[]), None, None));
        var up := Uploads(t, old(images).value, |old(images).value|);
        && device.trace == old(device.trace) + [Created(t, Texture(d.texture.value))] + up + up
        && device.next == t + 1
        && loaded && texture == Some(t) && view == None && descriptor == Some(d)
      ensures images == old(images) && sampler == old(sampler)
    {
      if !loaded && images.Some? {
        var t := GetTexture(device, false, map[]);
        var imgs := images.value;
        ghost var base := device.trace;
        var i := 0;
        while i < |imgs|
          invariant 0 <= i <= |imgs|
          invariant device.trace == base + Uploads(t, imgs, i)
          invariant device.next == old(device.next) + (if old(texture).None? then 1 else 0)
          invariant texture == Some(t) && images == old(images) && sampler == old(sampler)
          invariant old(texture).Some? ==> view == old(view) && descriptor == old(descriptor)
          invariant old(texture).None? ==> view == None && descriptor == Some(Updated(old(descriptor), TextureDescriptor(Some(map[]), None, None)))
        {
          device.Issue(CopyImageToTexture(imgs[i], t, i));
          i := i + 1;
        }
        loaded := true;
      }
    }

    /**
     * `getTexture(device, forceUpdate, desc)`: the cached texture unless
     * there is none or the call is forced; otherwise merge `desc` into the
     * texture descriptor, release the old texture, create a new one, forget
     * the view and upload the images if they are pending.
     */
    method GetTexture(device: Device, force: bool, desc: Props) returns (t: Handle)
      modifies this, device
      decreases if texture.None? || force then 2 else 0
      ensures texture == Some(t)
      ensures old(texture).Some? && !force ==> t == old(texture).value && unchanged(this, device)
      ensures old(texture).None? || force ==>
        var d := Updated(old(descriptor), TextureDescriptor(Some(desc), None, None));
        && t == old(device.next) && device.next == t + 1
        && device.trace == old(device.trace) + ReleaseCalls(old(texture)) + [Created(t, Texture(d.texture.value))]
             + UploadsIfPending(t, old(loaded), old(images))
        && descriptor == Some(d) && view == None
        && loaded == (old(loaded) || old(images).Some?)
      ensures images == old(images) && sampler == old(sampler)
    {
      if texture.None? || force {
        UpdateDescriptor(device, TextureDescriptor(Some(desc), None, None));
        t := device.Create(Texture(descriptor.value.texture.value));
        texture := Some(t);
        view := None;
        UpdateBuffer(device);
      } else {
        t := texture.value;
      }
    }

    /**
     * `getView(device, forceUpdate, desc)`: on a miss, the descriptor update
     * releases the texture, so a new texture is created for the new view.
     */
    method GetView(device: Device, force: bool, desc: Props) returns (v: Handle)
      modifies this, device
      ensures view == Some(v)
      ensures old(view).Some? && !force ==> v == old(view).value && unchanged(this, device)
      ensures old(view).None? || force ==>
        var d1 := Updated(old(descriptor), TextureDescriptor(None, Some(desc), None));
        var d := Updated(Some(d1), TextureDescriptor(Some(map[]), None, None));
        var t := old(device.next);
        && v == t + 1 && device.next == t + 2 && texture == Some(t)
        && device.trace == old(device.trace) + ReleaseCalls(old(texture)) + [Created(t, Texture(d.texture.value))]
             + UploadsIfPending(t, old(loaded), old(images)) + [Created(v, TextureView(t, d.view))]
        && descriptor == Some(d)
        && loaded == (old(loaded) || old(images).Some?)
      ensures images == old(images) && sampler == old(sampler)
    {
      if view.None? || force {
        UpdateDescriptor(device, TextureDescriptor(None, Some(desc), None));
        var t := GetTexture(device, false, map[]);
        v := device.Create(TextureView(t, descriptor.value.view));
        view := Some(v);
      } else {
        v := view.value;
      }
    }

    /** `getSampler(device, forceUpdate, desc)`: on a miss, the descriptor update releases the texture too. */
    method GetSampler(device: Device, force: bool, desc: Props) returns (s: Handle)
      modifies this, device
      ensures sampler == Some(s)
      ensures old(sampler).Some? && !force ==> s == old(sampler).value && unchanged(this, device)
      ensures old(sampler).None? || force ==>
        var d := Updated(old(descriptor), TextureDescriptor(None, None, Some(desc)));
        && s == old(device.next) && device.next == s + 1
        && device.trace == old(device.trace) + ReleaseCalls(old(texture)) + [Created(s, Sampler(d.sampler))]
        && descriptor == Some(d) && texture == None
        && view == (if old(texture).Some? then None else old(view))
        && loaded == old(loaded)
      ensures images == old(images)
    {
      if sampler.None? || force {
        UpdateDescriptor(device, TextureDescriptor(None, None, Some(desc)));
        s := device.Create(Sampler(descriptor.value.sampler));
        sampler := Some(s);
      } else {
        s := sampler.value;
      }
    }
  }
}
